/** The data source names the backend opens its databases with. */
module BackendDb {
  import opened Common

  /** One `key=value` pair of a Postgres DSN, the value as given. */
  function Pair(key: string, value: string): string {
    key + "=" + value
  }

  /** The pairs of a Postgres DSN, in order: host, port, user, password,
      dbname, then TLS off without a certificate, or full verification
      against it. */
  function PostgresPairs(host: string, port: string, user: string, password: string, dbname: string,
                         certPath: string): seq<string>
  {
    [Pair("host", host), Pair("port", port), Pair("user", user), Pair("password", password), Pair("dbname", dbname)] +
    (if certPath == "" then [Pair("sslmode", "disable")]
     else [Pair("sslmode", "verify-full"), Pair("sslrootcert", certPath)])
  }

  /** `CreatePostgresDSN`: the pairs separated by single spaces, unquoted. */
  function CreatePostgresDSN(host: string, port: string, user: string, password: string, dbname: string,
                             certPath: string): string
  {
    Join(PostgresPairs(host, port, user, password, dbname, certPath), " ")
  }

  /** Splitting the join of separator-free pieces gives the pieces back. */
  lemma {:induction false} SplitJoin(parts: seq<string>, sep: char)
    requires |parts| >= 1
    requires forall i :: 0 <= i < |parts| ==> !HasChar(parts[i], sep)
    ensures Split(Join(parts, [sep]), sep) == parts
    decreases |parts|
  {
    if |parts| > 1 {
      SplitJoin(parts[1..], sep);
      var rest := [sep] + Join(parts[1..], [sep]);
      assert Join(parts, [sep]) == parts[0] + rest;
      SplitPrefix(parts[0], rest, sep);
      assert rest[1..] == Join(parts[1..], [sep]);
      assert [parts[0]] + parts[1..] == parts;
    }
  }

  /** A pair holds a space only where its key or value does. */
  lemma PairNoSpace(key: string, value: string)
    requires !HasChar(key, ' ') && !HasChar(value, ' ')
    ensures !HasChar(Pair(key, value), ' ')
  {
    assert !HasChar("=", ' ');
    HasCharConcat(key, "=", ' ');
    HasCharConcat(key + "=", value, ' ');
  }

  /** With no space in any value, splitting the DSN at spaces gives back
      every pair, in order. */
  lemma PostgresRoundTrip(host: string, port: string, user: string, password: string, dbname: string,
                          certPath: string)
    requires !HasChar(host, ' ') && !HasChar(port, ' ') && !HasChar(user, ' ')
    requires !HasChar(password, ' ') && !HasChar(dbname, ' ') && !HasChar(certPath, ' ')
    ensures Split(CreatePostgresDSN(host, port, user, password, dbname, certPath), ' ') ==
      PostgresPairs(host, port, user, password, dbname, certPath)
  {
    assert !HasChar("host", ' ') && !HasChar("port", ' ') && !HasChar("user", ' ');
    assert !HasChar("password", ' ') && !HasChar("dbname", ' ') && !HasChar("sslmode", ' ');
    assert !HasChar("sslrootcert", ' ') && !HasChar("disable", ' ') && !HasChar("verify-full", ' ');
    PairNoSpace("host", host);
    PairNoSpace("port", port);
    PairNoSpace("user", user);
    PairNoSpace("password", password);
    PairNoSpace("dbname", dbname);
    PairNoSpace("sslmode", "disable");
    PairNoSpace("sslmode", "verify-full");
    PairNoSpace("sslrootcert", certPath);
    SplitJoin(PostgresPairs(host, port, user, password, dbname, certPath), ' ');
  }

  /** The TLS mode is off exactly when no certificate path is given; with
      one, the path is the last pair. */
  lemma PostgresSslMode(host: string, port: string, user: string, password: string, dbname: string,
                        certPath: string)
    ensures var pairs := PostgresPairs(host, port, user, password, dbname, certPath);
      (pairs[5] == Pair("sslmode", "disable") <==> certPath == "") &&
      (certPath != "" ==> |pairs| == 7 && pairs[6] == Pair("sslrootcert", certPath))
  {
    if certPath != "" {
      assert Pair("sslmode", "verify-full")[8] != Pair("sslmode", "disable")[8];
    }
  }

  /** Joining with a piece that itself holds the separator is the same
      text as joining with that piece cut in two. */
  lemma {:induction false} JoinSplice(before: seq<string>, x: string, y: string, after: seq<string>, sep: string)
    ensures Join(before + [x + sep + y] + after, sep) == Join(before + [x, y] + after, sep)
    decreases |before|
  {
    if |before| == 0 {
      assert before + [x + sep + y] + after == [x + sep + y] + after;
      assert before + [x, y] + after == [x, y] + after;
      if |after| == 0 {
        assert [x, y][1..] == [y];
      } else {
        assert ([x + sep + y] + after)[1..] == after;
        assert ([x, y] + after)[1..] == [y] + after;
        assert ([y] + after)[1..] == after;
      }
    } else {
      JoinSplice(before[1..], x, y, after, sep);
      assert (before + [x + sep + y] + after)[1..] == before[1..] + [x + sep + y] + after;
      assert (before + [x, y] + after)[1..] == before[1..] + [x, y] + after;
    }
  }

  /** A password holding a space is read back as two fields: nothing is
      quoted, so the part after the space becomes a field of its own. */
  lemma PostgresPasswordUnquoted(host: string, port: string, user: string, p1: string, p2: string,
                                 dbname: string)
    requires !HasChar(host, ' ') && !HasChar(port, ' ') && !HasChar(user, ' ')
    requires !HasChar(p1, ' ') && !HasChar(p2, ' ') && !HasChar(dbname, ' ')
    ensures Split(CreatePostgresDSN(host, port, user, p1 + " " + p2, dbname, ""), ' ') ==
      [Pair("host", host), Pair("port", port), Pair("user", user), Pair("password", p1), p2,
       Pair("dbname", dbname), Pair("sslmode", "disable")]
  {
    var before := [Pair("host", host), Pair("port", port), Pair("user", user)];
    var after := [Pair("dbname", dbname), Pair("sslmode", "disable")];
    assert Pair("password", p1 + " " + p2) == Pair("password", p1) + " " + p2;
    assert PostgresPairs(host, port, user, p1 + " " + p2, dbname, "") ==
      before + [Pair("password", p1) + " " + p2] + after;
    JoinSplice(before, Pair("password", p1), p2, after, " ");
    assert !HasChar("host", ' ') && !HasChar("port", ' ') && !HasChar("user", ' ');
    assert !HasChar("password", ' ') && !HasChar("dbname", ' ') && !HasChar("sslmode", ' ');
    assert !HasChar("disable", ' ');
    PairNoSpace("host", host);
    PairNoSpace("port", port);
    PairNoSpace("user", user);
    PairNoSpace("password", p1);
    PairNoSpace("dbname", dbname);
    PairNoSpace("sslmode", "disable");
    var cut := before + [Pair("password", p1), p2] + after;
    assert cut == [Pair("host", host), Pair("port", port), Pair("user", user), Pair("password", p1), p2,
                   Pair("dbname", dbname), Pair("sslmode", "disable")];
    SplitJoin(cut, ' ');
  }

  /** The credentials part of a MySQL DSN. */
  function Credentials(user: string, password: string): string {
    user + ":" + password
  }

  /** The address part of a MySQL DSN, with time values parsed. */
  function Address(host: string, port: string, dbname: string): string {
    "tcp(" + host + ":" + port + ")/" + dbname + "?parseTime=true"
  }

  /** `CreateMySQLDSN`: "user:password@tcp(host:port)/dbname?parseTime=true",
      values as given. */
  function CreateMySQLDSN(host: string, port: string, user: string, password: string, dbname: string): string
  {
    Credentials(user, password) + "@" + Address(host, port, dbname)
  }

  lemma AddressNoAt(host: string, port: string, dbname: string)
    requires !HasChar(host, '@') && !HasChar(port, '@') && !HasChar(dbname, '@')
    ensures !HasChar(Address(host, port, dbname), '@')
  {
    assert !HasChar("tcp(", '@') && !HasChar(":", '@') && !HasChar(")/", '@');
    assert !HasChar("?parseTime=true", '@');
    HasCharConcat("tcp(", host, '@');
    HasCharConcat("tcp(" + host, ":", '@');
    HasCharConcat("tcp(" + host + ":", port, '@');
    HasCharConcat("tcp(" + host + ":" + port, ")/", '@');
    HasCharConcat("tcp(" + host + ":" + port + ")/", dbname, '@');
    HasCharConcat("tcp(" + host + ":" + port + ")/" + dbname, "?parseTime=true", '@');
  }

  lemma CredentialsNoAt(user: string, password: string)
    requires !HasChar(user, '@') && !HasChar(password, '@')
    ensures !HasChar(Credentials(user, password), '@')
  {
    assert !HasChar(":", '@');
    HasCharConcat(user, ":", '@');
    HasCharConcat(user + ":", password, '@');
  }

  lemma SuffixParseTime(pre: string)
    ensures EndsWithParseTime(pre + "?parseTime=true")
  {
    var r := pre + "?parseTime=true";
    assert r[|pre|..] == "?parseTime=true";
  }

  lemma MySQLEndsWithParseTime(host: string, port: string, user: string, password: string, dbname: string)
    ensures EndsWithParseTime(CreateMySQLDSN(host, port, user, password, dbname))
  {
    var pre := Credentials(user, password) + "@" + "tcp(" + host + ":" + port + ")/" + dbname;
    assert CreateMySQLDSN(host, port, user, password, dbname) == pre + "?parseTime=true";
    SuffixParseTime(pre);
  }

  /** With no '@' in any value, the DSN splits at '@' into the
      credentials and the address; with no ':' in the user or the
      password, the credentials split at ':' into user and password. */
  lemma MySQLRoundTrip(host: string, port: string, user: string, password: string, dbname: string)
    requires !HasChar(user, '@') && !HasChar(password, '@') && !HasChar(host, '@')
    requires !HasChar(port, '@') && !HasChar(dbname, '@')
    requires !HasChar(user, ':') && !HasChar(password, ':')
    ensures Split(CreateMySQLDSN(host, port, user, password, dbname), '@') ==
      [Credentials(user, password), Address(host, port, dbname)]
    ensures Split(Credentials(user, password), ':') == [user, password]
    ensures EndsWithParseTime(CreateMySQLDSN(host, port, user, password, dbname))
  {
    CredentialsNoAt(user, password);
    AddressNoAt(host, port, dbname);
    SplitOnce(Credentials(user, password), Address(host, port, dbname), '@');
    SplitOnce(user, password, ':');
    MySQLEndsWithParseTime(host, port, user, password, dbname);
  }

  /** The DSN ends with the option asking the driver to parse time values. */
  predicate EndsWithParseTime(s: string) {
    |s| >= 15 && s[|s| - 15..] == "?parseTime=true"
  }
}
