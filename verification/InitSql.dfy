/** The init.sql script of the init-db ConfigMap and the passwords that go into it. */
module InitSql {
  import opened Names

  const HEAD := "CREATE DATABASE IF NOT EXISTS demo_proj; USE demo_proj;CREATE USER '"
  const MIDDLE := "' IDENTIFIED BY '"
  const GRANT := "';" + "GRANT ALL PRIVILEGES ON demo_proj.* TO '"
  const TAIL := "';"

  /** The script reconcileInitCmap formats from the Secret's user name and password. */
  function Render(username: string, password: string): string {
    Fill(HEAD, MIDDLE, GRANT, TAIL, username, password)
  }

  function Fill(head: string, middle: string, grant: string, tail: string, username: string, password: string): string {
    head + (username + (middle + (password + (grant + username + tail))))
  }

  // ---------------------------------------------------------------- reading it back

  predicate QuoteFree(s: string) {
    '\'' !in s
  }

  function Strip(s: string, prefix: string): Option<string> {
    if prefix <= s then Some(s[|prefix|..]) else None
  }

  /** The text up to the first quote. */
  function Quoted(s: string): (r: string)
    ensures QuoteFree(r) && r <= s
    ensures |r| < |s| ==> s[|r|] == '\''
  {
    if s == [] || s[0] == '\'' then [] else [s[0]] + Quoted(s[1..])
  }

  /** A quoted field and what follows its text. */
  function Field(s: string): (string, string) {
    (Quoted(s), s[|Quoted(s)|..])
  }

  /** The user and password a reader of the script creates, if the script has the template's shape. */
  function Parse(sql: string): Option<(string, string)> {
    ParseFill(HEAD, MIDDLE, GRANT, TAIL, sql)
  }

  function ParseFill(head: string, middle: string, grant: string, tail: string, sql: string): Option<(string, string)> {
    match Strip(sql, head)
    case None => None
    case Some(s1) =>
      var (username, s2) := Field(s1);
      match Strip(s2, middle)
      case None => None
      case Some(s3) =>
        var (password, s4) := Field(s3);
        if s4 == grant + username + tail then Some((username, password)) else None
  }

  lemma StripPrefix(prefix: string, s: string)
    ensures Strip(prefix + s, prefix) == Some(s)
  {
  }

  lemma {:induction false} QuotedStops(text: string, rest: string)
    requires QuoteFree(text) && rest != [] && rest[0] == '\''
    ensures Quoted(text + rest) == text
  {
    if text == [] {
      assert text + rest == rest;
    } else {
      assert (text + rest)[1..] == text[1..] + rest;
      QuotedStops(text[1..], rest);
    }
  }

  lemma FieldSplits(text: string, rest: string)
    requires QuoteFree(text) && rest != [] && rest[0] == '\''
    ensures Field(text + rest) == (text, rest)
  {
    QuotedStops(text, rest);
  }

  lemma FilledParses(head: string, middle: string, grant: string, tail: string, username: string, password: string)
    requires QuoteFree(username) && QuoteFree(password)
    requires middle != [] && middle[0] == '\'' && grant != [] && grant[0] == '\''
    ensures ParseFill(head, middle, grant, tail, Fill(head, middle, grant, tail, username, password))
         == Some((username, password))
  {
    var s4 := grant + username + tail;
    var s3 := password + s4;
    var s2 := middle + s3;
    StripPrefix(head, username + s2);
    FieldSplits(username, s2);
    StripPrefix(middle, s3);
    FieldSplits(password, s4);
  }

  lemma ParsedIsQuoteFree(head: string, middle: string, grant: string, tail: string, sql: string)
    ensures var r := ParseFill(head, middle, grant, tail, sql);
            r.Some? ==> QuoteFree(r.value.0) && QuoteFree(r.value.1)
  {
  }

  /** Reading the script gives back exactly the pair it was rendered from, if and only if neither the
      user name nor the password contains a quote. */
  lemma RenderRoundTrip(username: string, password: string)
    ensures Parse(Render(username, password)) == Some((username, password)) <==>
            QuoteFree(username) && QuoteFree(password)
  {
    ParsedIsQuoteFree(HEAD, MIDDLE, GRANT, TAIL, Render(username, password));
    if QuoteFree(username) && QuoteFree(password) {
      FilledParses(HEAD, MIDDLE, GRANT, TAIL, username, password);
    }
  }

  lemma SameEnds(a: string, p: string, q: string, b: string)
    requires a + (p + b) == a + (q + b)
    ensures p == q
  {
    assert |p| == |q|;
    assert (a + (p + b))[|a|..|a| + |p|] == p;
    assert (a + (q + b))[|a|..|a| + |q|] == q;
  }

  lemma FillInjective(head: string, middle: string, grant: string, tail: string, username: string, p: string, q: string)
    requires Fill(head, middle, grant, tail, username, p) == Fill(head, middle, grant, tail, username, q)
    ensures p == q
  {
    var a, b := head + username + middle, grant + username + tail;
    assert Fill(head, middle, grant, tail, username, p) == a + (p + b);
    assert Fill(head, middle, grant, tail, username, q) == a + (q + b);
    SameEnds(a, p, q, b);
  }

  /** For one user name, different passwords give different scripts. */
  lemma RenderInjective(username: string, p: string, q: string)
    requires Render(username, p) == Render(username, q)
    ensures p == q
  {
    FillInjective(HEAD, MIDDLE, GRANT, TAIL, username, p, q);
  }

  // ---------------------------------------------------------------- running it

  /** The databases, the users with their passwords, and who has all privileges on which database. */
  datatype Server = Server(databases: set<string>, users: map<string, string>, grants: set<(string, string)>)

  /** The text up to a semicolon outside of quotes. */
  function StatementLength(s: string, quoted: bool): (n: nat)
    ensures n <= |s|
  {
    if s == [] || (s[0] == ';' && !quoted) then 0
    else StatementLength(s[1..], if s[0] == '\'' then !quoted else quoted) + 1
  }

  function Statements(sql: string): seq<string>
    decreases |sql|
  {
    var n := StatementLength(sql, false);
    if sql == [] then [] else [sql[..n]] + if n < |sql| then Statements(sql[n + 1..]) else []
  }

  function Trimmed(s: string): string {
    if s != [] && s[0] == ' ' then Trimmed(s[1..]) else s
  }

  /** The text up to a character, and the rest. */
  function Upto(s: string, c: char): (string, string) {
    if s == [] || s[0] == c then ([], s) else
      var (a, b) := Upto(s[1..], c);
      ([s[0]] + a, b)
  }

  /** CREATE USER 'u' IDENTIFIED BY 'p', from the first quote on. */
  function NewUser(server: Server, s: string): Server {
    var (user, rest) := Field(s);
    match Strip(rest, "' IDENTIFIED BY '")
    case None => server
    case Some(t) =>
      var (password, end) := Field(t);
      if end == "'" then server.(users := server.users[user := password]) else server
  }

  /** GRANT ALL PRIVILEGES ON d.* TO 'u', from the database on; the user must exist. */
  function NewGrant(server: Server, s: string): Server {
    var (database, rest) := Upto(s, '.');
    match Strip(rest, ".* TO '")
    case None => server
    case Some(t) =>
      var (user, end) := Field(t);
      if end == "'" && user in server.users then server.(grants := server.grants + {(database, user)}) else server
  }

  /** What a statement of one of these four forms does; any other does nothing. */
  function Exec(server: Server, statement: string): Server {
    var s := Trimmed(statement);
    var database, user := Strip(s, "CREATE DATABASE IF NOT EXISTS "), Strip(s, "CREATE USER '");
    var grant := Strip(s, "GRANT ALL PRIVILEGES ON ");
    if database.Some? then server.(databases := server.databases + {database.value})
    else if user.Some? then NewUser(server, user.value)
    else if grant.Some? then NewGrant(server, grant.value)
    else server
  }

  function ExecAll(server: Server, statements: seq<string>): Server {
    if statements == [] then server else Exec(ExecAll(server, statements[..|statements| - 1]), statements[|statements| - 1])
  }

  /** Text without semicolons and quotes is passed over, and so is quoted text without quotes. */
  lemma {:induction false} PassOver(a: string, rest: string, quoted: bool)
    requires QuoteFree(a) && (quoted || ';' !in a)
    ensures StatementLength(a + rest, quoted) == |a| + StatementLength(rest, quoted)
  {
    if a == [] {
      assert a + rest == rest;
    } else {
      assert (a + rest)[1..] == a[1..] + rest;
      assert a[0] in a;
      PassOver(a[1..], rest, quoted);
    }
  }

  lemma PassQuote(rest: string, quoted: bool)
    ensures StatementLength("'" + rest, quoted) == 1 + StatementLength(rest, !quoted)
  {
    assert ("'" + rest)[1..] == rest;
  }

  /** A quoted field in the middle of a statement. */
  lemma PassField(head: string, field: string, rest: string)
    requires QuoteFree(head) && ';' !in head && QuoteFree(field)
    ensures StatementLength(head + ("'" + (field + ("'" + rest))), false) ==
              |head| + |field| + 2 + StatementLength(rest, false)
  {
    PassOver(head, "'" + (field + ("'" + rest)), false);
    PassQuote(field + ("'" + rest), false);
    PassOver(field, "'" + rest, true);
    PassQuote(rest, true);
  }

  lemma FirstStatement(s: string, rest: string)
    requires StatementLength(s + (";" + rest), false) == |s|
    ensures Statements(s + (";" + rest)) == [s] + Statements(rest)
  {
    var sql := s + (";" + rest);
    assert sql[..|s|] == s && sql[|s| + 1..] == rest;
  }

  lemma PlainStatement(s: string, rest: string)
    requires QuoteFree(s) && ';' !in s
    ensures Statements(s + (";" + rest)) == [s] + Statements(rest)
  {
    PassOver(s, ";" + rest, false);
    FirstStatement(s, rest);
  }

  function CreateUser(username: string, password: string): string {
    "CREATE USER '" + username + "' IDENTIFIED BY '" + password + "'"
  }

  function GrantAll(username: string): string {
    "GRANT ALL PRIVILEGES ON demo_proj.* TO '" + username + "'"
  }

  lemma UserText()
    ensures QuoteFree("CREATE USER ") && ';' !in "CREATE USER " && QuoteFree(" IDENTIFIED BY ") && ';' !in " IDENTIFIED BY "
  {
  }

  lemma GrantHead()
    ensures var head := "GRANT ALL PRIVILEGES ON demo_proj.* TO "; QuoteFree(head) && ';' !in head
  {
  }

  lemma UserStatement(username: string, password: string, rest: string)
    requires QuoteFree(username) && QuoteFree(password)
    ensures Statements(CreateUser(username, password) + (";" + rest)) == [CreateUser(username, password)] + Statements(rest)
  {
    var s := CreateUser(username, password);
    var tail := " IDENTIFIED BY " + ("'" + (password + ("'" + (";" + rest))));
    assert s + (";" + rest) == "CREATE USER " + ("'" + (username + ("'" + tail)));
    UserText();
    PassField("CREATE USER ", username, tail);
    PassField(" IDENTIFIED BY ", password, ";" + rest);
    FirstStatement(s, rest);
  }

  lemma GrantStatement(username: string, rest: string)
    requires QuoteFree(username)
    ensures Statements(GrantAll(username) + (";" + rest)) == [GrantAll(username)] + Statements(rest)
  {
    var s := GrantAll(username);
    var head := "GRANT ALL PRIVILEGES ON demo_proj.* TO ";
    assert s + (";" + rest) == head + ("'" + (username + ("'" + (";" + rest))));
    GrantHead();
    PassField(head, username, ";" + rest);
    FirstStatement(s, rest);
  }

  const CREATE_DATABASE := "CREATE DATABASE IF NOT EXISTS demo_proj"
  const USE_DATABASE := " USE demo_proj"

  lemma RenderedStatements(username: string, password: string)
    requires QuoteFree(username) && QuoteFree(password)
    ensures Statements(Render(username, password)) ==
              [CREATE_DATABASE, USE_DATABASE, CreateUser(username, password), GrantAll(username)]
  {
    var r3 := GrantAll(username) + (";" + "");
    var r2 := CreateUser(username, password) + (";" + r3);
    var r1 := USE_DATABASE + (";" + r2);
    RenderedText(username, password);
    hide Statements, CreateUser, GrantAll, Render;
    PlainText();
    PlainStatement(CREATE_DATABASE, r1);
    PlainStatement(USE_DATABASE, r2);
    UserStatement(username, password, r3);
    GrantStatement(username, "");
    NoStatements();
  }

  lemma PlainText()
    ensures QuoteFree(CREATE_DATABASE) && ';' !in CREATE_DATABASE
    ensures QuoteFree(USE_DATABASE) && ';' !in USE_DATABASE
  {
    forall c | c in CREATE_DATABASE ensures c != '\'' && c != ';' {
    }
  }

  lemma NoStatements()
    ensures Statements("") == []
  {
  }

  lemma RenderedText(username: string, password: string)
    ensures Render(username, password) ==
              CREATE_DATABASE + (";" + (USE_DATABASE + (";" + (CreateUser(username, password)
              + (";" + (GrantAll(username) + (";" + "")))))))
  {
    HeadText();
    GrantText("GRANT ALL PRIVILEGES ON demo_proj.* TO '");
    assert "'" + (";" + "") == TAIL;
    Regroup(CREATE_DATABASE, USE_DATABASE, "CREATE USER '", MIDDLE, "GRANT ALL PRIVILEGES ON demo_proj.* TO '", "'", ";",
            username, password);
  }

  lemma HeadText()
    ensures CREATE_DATABASE + (";" + (USE_DATABASE + (";" + "CREATE USER '"))) == HEAD
  {
  }

  lemma GrantText(g: string)
    ensures "'" + (";" + g) == "';" + g
  {
  }

  /** The pieces of the template, grouped by statements. */
  lemma Regroup(cd: string, us: string, cu: string, mid: string, ga: string, q: string, semi: string, u: string, p: string)
    ensures Fill(cd + (semi + (us + (semi + cu))), mid, q + (semi + ga), q + (semi + ""), u, p) ==
              cd + (semi + (us + (semi + ((cu + u + mid + p + q) + (semi + ((ga + u + q) + (semi + "")))))))
  {
    var end := semi + "";
    var last := ga + u + q + end;
    calc {
      (q + (semi + ga)) + u + (q + end);
      q + (semi + (ga + u + (q + end)));
      { assert ga + u + (q + end) == last; }
      q + (semi + last);
    }
    var tail := u + (mid + (p + (q + (semi + last))));
    assert cu + tail == (cu + u + mid + p + q) + (semi + last);
    assert (cd + (semi + (us + (semi + cu)))) + tail == cd + (semi + (us + (semi + (cu + tail))));
    assert last == (ga + u + q) + end;
  }

  lemma ExecPlain(server: Server)
    ensures Exec(server, CREATE_DATABASE) == server.(databases := server.databases + {"demo_proj"})
    ensures Exec(server, USE_DATABASE) == server
  {
    assert CREATE_DATABASE[|"CREATE DATABASE IF NOT EXISTS "|..] == "demo_proj";
    assert USE_DATABASE[1..] == "USE demo_proj" && Trimmed("USE demo_proj") == "USE demo_proj";
    assert Trimmed(USE_DATABASE) == "USE demo_proj";
  }

  lemma ExecUser(server: Server, username: string, password: string)
    requires QuoteFree(username) && QuoteFree(password)
    ensures Exec(server, CreateUser(username, password)) == server.(users := server.users[username := password])
  {
    hide NewGrant;
    var s := CreateUser(username, password);
    var rest := "' IDENTIFIED BY '" + (password + "'");
    assert s == "CREATE USER '" + (username + rest);
    assert s[7] != "CREATE DATABASE IF NOT EXISTS "[7];
    StripPrefix("CREATE USER '", username + rest);
    FieldSplits(username, rest);
    StripPrefix("' IDENTIFIED BY '", password + "'");
    FieldSplits(password, "'");
  }

  lemma ExecGrant(server: Server, username: string)
    requires QuoteFree(username) && username in server.users
    ensures Exec(server, GrantAll(username)) == server.(grants := server.grants + {("demo_proj", username)})
  {
    hide NewUser;
    var s := GrantAll(username);
    var rest := ".* TO '" + (username + "'");
    assert s == "GRANT ALL PRIVILEGES ON " + ("demo_proj" + rest);
    assert s[0] != "CREATE USER '"[0];
    StripPrefix("GRANT ALL PRIVILEGES ON ", "demo_proj" + rest);
    UptoSplits("demo_proj", rest, '.');
    StripPrefix(".* TO '", username + "'");
    FieldSplits(username, "'");
  }

  lemma {:induction false} UptoSplits(a: string, rest: string, c: char)
    requires c !in a && rest != [] && rest[0] == c
    ensures Upto(a + rest, c) == (a, rest)
  {
    if a == [] {
      assert a + rest == rest;
    } else {
      assert (a + rest)[1..] == a[1..] + rest;
      assert a[0] in a && forall x :: x in a[1..] ==> x in a;
      UptoSplits(a[1..], rest, c);
      assert [a[0]] + a[1..] == a;
    }
  }

  /** What init.sql does to a new server, if neither name nor password has a quote: afterwards there is the database
      demo_proj and the one user with that password, and that user has all privileges on it. */
  lemma ScriptCreatesUser(username: string, password: string)
    requires QuoteFree(username) && QuoteFree(password)
    ensures ExecAll(Server({}, map[], {}), Statements(Render(username, password))) ==
              Server({"demo_proj"}, map[username := password], {("demo_proj", username)})
  {
    hide Exec, CreateUser, GrantAll, Render, Statements;
    RenderedStatements(username, password);
    var server := Server({}, map[], {});
    var sts := [CREATE_DATABASE, USE_DATABASE, CreateUser(username, password), GrantAll(username)];
    assert sts[..3][..2] == [CREATE_DATABASE, USE_DATABASE] && sts[..3][2] == CreateUser(username, password);
    ExecPlain(server);
    var server1 := Exec(server, CREATE_DATABASE);
    ExecPlain(server1);
    ExecUser(server1, username, password);
    var server2 := Exec(server1, CreateUser(username, password));
    ExecGrant(server2, username);
    ExecTwo(server, CREATE_DATABASE, USE_DATABASE);
    assert ExecAll(server, sts[..3]) == server2;
  }

  lemma ExecTwo(server: Server, a: string, b: string)
    ensures ExecAll(server, [a, b]) == Exec(Exec(server, a), b)
  {
    hide Exec;
    assert [a, b][..1] == [a] && [a][..0] == [];
    assert ExecAll(server, [a]) == Exec(ExecAll(server, []), a);
  }

  // ---------------------------------------------------------------- generated passwords

  const CHARSET := "abcdefghijklmnopqrstuvwxyz" + "ABCDEFGHIJKLMNOPQRSTUVWXYZ0123456789"

  /** What the generator returns for a sequence of random draws. */
  function Drawn(charset: string, draws: seq<nat>): (s: string)
    requires forall i :: 0 <= i < |draws| ==> draws[i] < |charset|
    ensures |s| == |draws| && forall i :: 0 <= i < |s| ==> s[i] == charset[draws[i]]
  {
    seq(|draws|, i requires 0 <= i < |draws| => charset[draws[i]])
  }

  /** The byte-filling loop; `draws` is what the seeded generator returns, one index per call. */
  method StringWithCharset(length: nat, charset: string, draws: seq<nat>) returns (s: string)
    requires |draws| == length && forall i :: 0 <= i < length ==> draws[i] < |charset|
    ensures |s| == length && (forall c :: c in s ==> c in charset)
    ensures s == Drawn(charset, draws)
  {
    var b := new char[length](_ => 'a');
    for i := 0 to length
      invariant forall j :: 0 <= j < i ==> b[j] == charset[draws[j]]
    {
      b[i] := charset[draws[i]];
    }
    s := b[..];
  }

  predicate AlphaNumeric(c: char) {
    'a' <= c <= 'z' || 'A' <= c <= 'Z' || '0' <= c <= '9'
  }

  lemma CharsetAlphaNumeric(i: nat)
    requires i < |CHARSET|
    ensures AlphaNumeric(CHARSET[i])
  {
  }

  lemma LowerAt(i: nat)
    requires i < 26
    ensures |CHARSET| == 62 && CHARSET[i] as int == 'a' as int + i
  {
  }

  lemma UpperAt(i: nat)
    requires i < 26
    ensures |CHARSET| == 62 && CHARSET[26 + i] as int == 'A' as int + i
  {
  }

  lemma DigitAt(i: nat)
    requires i < 10
    ensures |CHARSET| == 62 && CHARSET[52 + i] as int == '0' as int + i
  {
  }

  /** The charset is exactly the letters and digits. */
  lemma CharsetExact(c: char)
    ensures c in CHARSET <==> AlphaNumeric(c)
  {
    hide CHARSET;
    if c in CHARSET {
      var i :| 0 <= i < |CHARSET| && CHARSET[i] == c;
      CharsetAlphaNumeric(i);
    }
    if 'a' <= c <= 'z' {
      LowerAt(c as int - 'a' as int);
      assert CHARSET[c as int - 'a' as int] == c;
    } else if 'A' <= c <= 'Z' {
      UpperAt(c as int - 'A' as int);
      assert CHARSET[26 + (c as int - 'A' as int)] == c;
    } else if '0' <= c <= '9' {
      DigitAt(c as int - '0' as int);
      assert CHARSET[52 + (c as int - '0' as int)] == c;
    }
  }

  /** Every generated password survives the script: with a quote-free user name, whatever the draws. */
  lemma GeneratedRoundTrip(username: string, draws: seq<nat>)
    requires QuoteFree(username) && (forall i :: 0 <= i < |draws| ==> draws[i] < |CHARSET|)
    ensures Parse(Render(username, Drawn(CHARSET, draws))) == Some((username, Drawn(CHARSET, draws)))
  {
    var s := Drawn(CHARSET, draws);
    forall i | 0 <= i < |s| ensures s[i] != '\'' {
      CharsetAlphaNumeric(draws[i]);
    }
    RenderRoundTrip(username, s);
  }
}
