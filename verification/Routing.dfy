/** The ProxySQL query rules: which statements go to the replicas and which to the primary. */
module Routing {

  /** The pattern elements the three rules use: text, a choice, `.*`, and `$`. All are anchored with `^`. */
  datatype Element = Text(s: string) | Choice(words: seq<string>) | Anything | End

  /** Backtracking match at the start of a single-line statement. */
  predicate Match(pattern: seq<Element>, s: string)
    decreases |pattern|, |s|
  {
    if pattern == [] then true
    else
      var rest := pattern[1..];
      match pattern[0]
      case Text(t) => t <= s && Match(rest, s[|t|..])
      case Choice(ws) => exists i :: 0 <= i < |ws| && ws[i] <= s && Match(rest, s[|ws[i]|..])
      case Anything => Match(rest, s) || (s != [] && Match(pattern, s[1..]))
      case End => s == [] && Match(rest, s)
  }

  datatype Rule = Rule(id: nat, pattern: seq<Element>, hostgroup: nat)

  const READERS: nat := 10
  const PRIMARY: nat := 20

  const WRITE_VERBS := ["CREATE", "ALTER", "DROP", "ALTER", "TRUNCATE", "RENAME", "MERGE", "INSERT", "REPLACE",
                        "DELETE", "LOAD", "CALL", "SET"]
  const READ_VERBS := ["SELECT", "SHOW", "DESCRIBE", "EXPLAIN"]

  const RULE100 := Rule(100, [Choice(WRITE_VERBS), Text(" "), Anything, End], PRIMARY)
  const RULE200 := Rule(200, [Text("SELECT "), Anything, Text(" FOR UPDATE")], PRIMARY)
  const RULE300 := Rule(300, [Choice(READ_VERBS), Text(" "), Anything], READERS)

  const RULES := [RULE100, RULE200, RULE300]

  /** The first rule that matches decides; a statement no rule matches takes the user's default. */
  function FirstMatch(rules: seq<Rule>, s: string, otherwise: nat): nat {
    if rules == [] then otherwise
    else if Match(rules[0].pattern, s) then rules[0].hostgroup
    else FirstMatch(rules[1..], s, otherwise)
  }

  function Route(s: string): nat {
    FirstMatch(RULES, s, PRIMARY)
  }

  // ---------------------------------------------------------------- what the rules mean

  predicate Opens(s: string, words: seq<string>) {
    exists i :: 0 <= i < |words| && words[i] + " " <= s
  }

  predicate OccursAt(s: string, t: string, k: nat) {
    k + |t| <= |s| && s[k..k + |t|] == t
  }

  /** t occurs in s at position from or later. */
  ghost predicate OccursFrom(s: string, t: string, from: nat) {
    exists k: nat :: from <= k && OccursAt(s, t, k)
  }

  ghost predicate Locks(s: string) {
    "SELECT " <= s && OccursFrom(s, " FOR UPDATE", 7)
  }

  lemma {:induction false} MatchAnything(s: string, tail: seq<Element>)
    requires tail == [] || tail == [End]
    ensures Match([Anything] + tail, s)
  {
    var pattern := [Anything] + tail;
    assert pattern[1..] == tail;
    if tail == [End] {
      assert tail[1..] == [];
      if s != [] {
        MatchAnything(s[1..], tail);
      }
    }
  }

  lemma {:induction false} MatchSomewhere(s: string, t: string)
    ensures Match([Anything, Text(t)], s) <==> OccursFrom(s, t, 0)
  {
    var pattern := [Anything, Text(t)];
    assert pattern[1..] == [Text(t)] && pattern[1..][1..] == [];
    assert t <= s <==> OccursAt(s, t, 0);
    assert Match([Text(t)], s) <==> t <= s;
    FirstOrLater(s, t);
    if s != [] {
      MatchSomewhere(s[1..], t);
      Shifted(s, t, 1, 0);
      assert Match(pattern, s) <==> Match([Text(t)], s) || Match(pattern, s[1..]);
    }
  }

  lemma FirstOrLater(s: string, t: string)
    ensures OccursFrom(s, t, 0) <==> OccursAt(s, t, 0) || OccursFrom(s, t, 1)
    ensures s == [] ==> !OccursFrom(s, t, 1)
  {
    if OccursFrom(s, t, 0) && !OccursAt(s, t, 0) {
      var k: nat :| 0 <= k && OccursAt(s, t, k);
      assert 1 <= k;
    }
  }

  /** Occurrences in a rest of s are the occurrences in s from there on. */
  lemma Shifted(s: string, t: string, d: nat, from: nat)
    requires d <= |s|
    ensures OccursFrom(s[d..], t, from) <==> OccursFrom(s, t, from + d)
  {
    forall k: nat ensures OccursAt(s[d..], t, k) <==> OccursAt(s, t, k + d) {
      if k + d + |t| <= |s| {
        assert s[d..][k..k + |t|] == s[k + d..k + d + |t|];
      }
    }
    if OccursFrom(s, t, from + d) {
      var k: nat :| from + d <= k && OccursAt(s, t, k);
      assert OccursAt(s[d..], t, k - d);
    }
  }

  lemma MatchVerb(words: seq<string>, tail: seq<Element>, s: string)
    requires tail == [Anything] || tail == [Anything, End]
    ensures Match([Choice(words), Text(" ")] + tail, s) <==> Opens(s, words)
  {
    var pattern := [Choice(words), Text(" ")] + tail;
    var rest := pattern[1..];
    assert rest == [Text(" ")] + tail && rest[1..] == tail;
    forall i | 0 <= i < |words| && words[i] <= s
      ensures Match(rest, s[|words[i]|..]) <==> words[i] + " " <= s
    {
      var r := s[|words[i]|..];
      assert " " <= r <==> words[i] + " " <= s by {
        assert s == words[i] + r;
        if words[i] + " " <= s {
          assert s[|words[i]|] == ' ';
        }
      }
      if " " <= r {
        assert tail == [Anything] + tail[1..];
        MatchAnything(r[1..], tail[1..]);
      }
    }
    forall i | 0 <= i < |words| && words[i] + " " <= s ensures words[i] <= s {
    }
  }

  lemma MatchLock(s: string)
    ensures Match(RULE200.pattern, s) <==> Locks(s)
  {
    var pattern := RULE200.pattern;
    var t := " FOR UPDATE";
    assert pattern[1..] == [Anything, Text(t)];
    if "SELECT " <= s {
      MatchSomewhere(s[7..], t);
      Shifted(s, t, 7, 0);
    }
  }

  lemma PrefixesDiffer(a: string, b: string, n: nat, s: string)
    requires n < |a| && n < |b| && a[n] != b[n] && a + " " <= s
    ensures !(b + " " <= s)
  {
    assert s[n] == (a + " ")[n] == a[n];
    assert (b + " ")[n] == b[n];
  }

  /** No read verb opens the same statement as a write verb: they differ in one of the first two letters,
      or, for DESCRIBE and DELETE, in the third. */
  lemma VerbsApart(s: string)
    requires Opens(s, READ_VERBS)
    ensures !Opens(s, WRITE_VERBS)
  {
    var i :| 0 <= i < |READ_VERBS| && READ_VERBS[i] + " " <= s;
    forall j | 0 <= j < |WRITE_VERBS| ensures !(WRITE_VERBS[j] + " " <= s) {
      var n := VerbPair(i, j);
      PrefixesDiffer(READ_VERBS[i], WRITE_VERBS[j], n, s);
    }
  }

  lemma VerbPair(i: nat, j: nat) returns (n: nat)
    requires i < |READ_VERBS| && j < |WRITE_VERBS|
    ensures n < |READ_VERBS[i]| && n < |WRITE_VERBS[j]| && READ_VERBS[i][n] != WRITE_VERBS[j][n]
  {
    var r, w := READ_VERBS[i], WRITE_VERBS[j];
    n := if r[0] != w[0] then 0 else if r[1] != w[1] then 1 else 2;
  }

  lemma ThreeRules(a: Rule, b: Rule, c: Rule, s: string, otherwise: nat)
    ensures FirstMatch([a, b, c], s, otherwise) ==
              if Match(a.pattern, s) then a.hostgroup
              else if Match(b.pattern, s) then b.hostgroup
              else if Match(c.pattern, s) then c.hostgroup
              else otherwise
  {
    hide Match;
    assert [a, b, c][1..] == [b, c] && [b, c][1..] == [c] && [c][1..] == [];
    assert FirstMatch([], s, otherwise) == otherwise;
    assert FirstMatch([c], s, otherwise) == if Match(c.pattern, s) then c.hostgroup else otherwise;
  }

  lemma RuleMeaning(s: string)
    ensures Match(RULE100.pattern, s) <==> Opens(s, WRITE_VERBS)
    ensures Match(RULE200.pattern, s) <==> Locks(s)
    ensures Match(RULE300.pattern, s) <==> Opens(s, READ_VERBS)
  {
    hide Match;
    MatchVerb(WRITE_VERBS, [Anything, End], s);
    MatchVerb(READ_VERBS, [Anything], s);
    MatchLock(s);
    assert RULE100.pattern == [Choice(WRITE_VERBS), Text(" ")] + [Anything, End];
    assert RULE300.pattern == [Choice(READ_VERBS), Text(" ")] + [Anything];
  }

  /** A plain read: it opens with one of four verbs and a space, and is no SELECT that locks rows for update. */
  ghost predicate PlainRead(s: string) {
    && ("SELECT " <= s || "SHOW " <= s || "DESCRIBE " <= s || "EXPLAIN " <= s)
    && !("SELECT " <= s && exists k: nat :: 7 <= k && OccursAt(s, " FOR UPDATE", k))
  }

  /** Exactly the plain reads go to hostgroup 10, the readers; everything else goes to hostgroup 20, the primary. */
  lemma RouteExact(s: string)
    ensures Route(s) == 10 <==> PlainRead(s)
    ensures Route(s) == 20 <==> !PlainRead(s)
  {
    hide Match, Opens, FirstMatch;
    RuleMeaning(s);
    ThreeRules(RULE100, RULE200, RULE300, s, PRIMARY);
    ReadVerbs(s);
    if Opens(s, READ_VERBS) {
      VerbsApart(s);
    }
  }

  lemma ReadVerbs(s: string)
    ensures Opens(s, READ_VERBS) <==> "SELECT " <= s || "SHOW " <= s || "DESCRIBE " <= s || "EXPLAIN " <= s
  {
    assert READ_VERBS[0] + " " == "SELECT " && READ_VERBS[1] + " " == "SHOW ";
    assert READ_VERBS[2] + " " == "DESCRIBE " && READ_VERBS[3] + " " == "EXPLAIN ";
  }

  /** An UPDATE, which no rule names, reaches the primary by the user's default hostgroup. */
  lemma UpdateByDefault(s: string)
    requires "UPDATE" <= s
    ensures Route(s) == 20
    ensures forall i :: 0 <= i < |RULES| ==> !Match(RULES[i].pattern, s)
  {
    hide Match, FirstMatch;
    RuleMeaning(s);
    ThreeRules(RULE100, RULE200, RULE300, s, PRIMARY);
    assert s[0] == 'U';
  }

  /** Rule 100 takes the statements that open with one of these verbs and a space. */
  lemma WriteRule(s: string)
    ensures Match(RULE100.pattern, s) <==>
              || "CREATE " <= s || "ALTER " <= s || "DROP " <= s || "TRUNCATE " <= s || "RENAME " <= s || "MERGE " <= s
              || "INSERT " <= s || "REPLACE " <= s || "DELETE " <= s || "LOAD " <= s || "CALL " <= s || "SET " <= s
  {
    hide Match;
    RuleMeaning(s);
    var w := WRITE_VERBS;
    assert w[0] + " " == "CREATE " && w[1] + " " == w[3] + " " == "ALTER " && w[2] + " " == "DROP ";
    assert w[4] + " " == "TRUNCATE " && w[5] + " " == "RENAME " && w[6] + " " == "MERGE " && w[7] + " " == "INSERT ";
    assert w[8] + " " == "REPLACE " && w[9] + " " == "DELETE " && w[10] + " " == "LOAD " && w[11] + " " == "CALL ";
    assert w[12] + " " == "SET ";
  }
}
