/**
  Assignees of a work-item tree (src/capabilities/tools/workitem_tools.py): the resolver of member
  names, the cleaning of a list of names, and the roll-up that gives each item, in place, everyone who
  works below it.
 */
module WorkItemRollup {
  import opened Common
  import opened Events
  import opened WorkItemValidation

  // ---------------------------------------------------------------------
  // Resolving names
  // ---------------------------------------------------------------------

  function LowerChar(c: char): char {
    if 'A' <= c <= 'Z' then (c as int + 32) as char else c
  }

  /** `str.lower`, for Latin letters. */
  function Lower(s: string): (r: string)
    ensures |r| == |s| && forall i :: 0 <= i < |r| ==> r[i] == LowerChar(s[i])
  {
    seq(|s|, i requires 0 <= i < |s| => LowerChar(s[i]))
  }

  datatype Member = Member(username: Shown, fullName: Shown, userId: Shown)

  /** The keys under which a member is found, with the username they lead to, in the order they are claimed. */
  function ClaimsOf(m: Member): seq<(string, string)> {
    var username := Strip(TextOf(m.username));
    if username == "" then []
    else [(Lower(username), username)] + ClaimOf(m.fullName, username) + ClaimOf(m.userId, username)
  }

  function ClaimOf(name: Shown, username: string): seq<(string, string)> {
    if Strip(TextOf(name)) == "" then [] else [(Lower(Strip(TextOf(name))), username)]
  }

  function Claims(ms: seq<Member>): seq<(string, string)> {
    if ms == [] then [] else Claims(ms[..|ms| - 1]) + ClaimsOf(ms[|ms| - 1])
  }

  /** The first claim of a key holds. */
  function FirstWins(known: map<string, string>, cs: seq<(string, string)>): map<string, string>
    decreases |cs|
  {
    if cs == [] then known
    else FirstWins(if cs[0].0 in known then known else known[cs[0].0 := cs[0].1], cs[1..])
  }

  /** The resolver that the members make. */
  function Known(ms: seq<Member>): map<string, string> {
    FirstWins(map[], Claims(ms))
  }

  lemma {:induction false} FirstWinsAppend(known: map<string, string>, a: seq<(string, string)>, b: seq<(string, string)>)
    ensures FirstWins(known, a + b) == FirstWins(FirstWins(known, a), b)
    decreases |a|
  {
    if a == [] {
      assert a + b == b;
    } else {
      assert (a + b)[1..] == a[1..] + b;
      FirstWinsAppend(if a[0].0 in known then known else known[a[0].0 := a[0].1], a[1..], b);
    }
  }

  /** `dict.setdefault` under the lower-case form of a name, if there is one. */
  method Claim(known: map<string, string>, name: Shown, username: string) returns (r: map<string, string>)
    ensures r == FirstWins(known, ClaimOf(name, username))
  {
    var text := Strip(TextOf(name));
    r := known;
    if text != "" && Lower(text) !in known {
      r := known[Lower(text) := username];
    }
  }

  /** `_known_member_usernames`. */
  method KnownMemberUsernames(ms: seq<Member>) returns (known: map<string, string>)
    ensures known == Known(ms) && IsResolver(known)
  {
    hide Strip;
    known := map[];
    for i := 0 to |ms|
      invariant known == FirstWins(map[], Claims(ms[..i]))
    {
      assert ms[..i + 1][..i] == ms[..i];
      FirstWinsAppend(map[], Claims(ms[..i]), ClaimsOf(ms[i]));
      known := ClaimMember(known, ms[i]);
    }
    assert ms[..|ms|] == ms;
    ClaimsResolve(ms);
    FirstWinsResolves(map[], Claims(ms));
  }

  method ClaimMember(known: map<string, string>, m: Member) returns (r: map<string, string>)
    ensures r == FirstWins(known, ClaimsOf(m))
  {
    hide Strip, Lower;
    var username := Strip(TextOf(m.username));
    r := known;
    if username != "" {
      r := Claim(r, m.username, username);
      r := Claim(r, m.fullName, username);
      r := Claim(r, m.userId, username);
      FirstWinsAppend(known, ClaimOf(m.username, username), ClaimOf(m.fullName, username));
      FirstWinsAppend(known, ClaimOf(m.username, username) + ClaimOf(m.fullName, username), ClaimOf(m.userId, username));
      assert ClaimsOf(m) == ClaimOf(m.username, username) + ClaimOf(m.fullName, username) + ClaimOf(m.userId, username);
      hide FirstWins, ClaimOf, ClaimsOf;
    }
  }

  /** Keys are lower-case and trimmed, usernames trimmed, and neither is empty. */
  ghost predicate IsResolver(known: map<string, string>) {
    forall k :: k in known ==> IsClaim((k, known[k]))
  }

  predicate IsClaim(c: (string, string)) {
    c.0 != "" && Strip(c.0) == c.0 && Lower(c.0) == c.0 && c.1 != "" && Strip(c.1) == c.1
  }

  lemma StripFixed(s: string)
    requires s != "" && !IsSpace(s[0]) && !IsSpace(s[|s| - 1])
    ensures Strip(s) == s
  {
  }

  lemma LowerIsClaim(name: string, username: string)
    requires name != "" && Strip(name) == name && username != "" && Strip(username) == username
    ensures IsClaim((Lower(name), username))
  {
    assert !IsSpace(name[0]) && !IsSpace(name[|name| - 1]);
    StripFixed(Lower(name));
    assert Lower(Lower(name)) == Lower(name);
  }

  lemma MemberClaims(m: Member)
    ensures forall c :: c in ClaimsOf(m) ==> IsClaim(c)
  {
    hide Strip, Lower, IsClaim;
    var username, fullName, userId := Strip(TextOf(m.username)), Strip(TextOf(m.fullName)), Strip(TextOf(m.userId));
    StripIsIdempotent(TextOf(m.username));
    StripIsIdempotent(TextOf(m.fullName));
    StripIsIdempotent(TextOf(m.userId));
    if username != "" {
      LowerIsClaim(username, username);
      if fullName != "" {
        LowerIsClaim(fullName, username);
      }
      if userId != "" {
        LowerIsClaim(userId, username);
      }
    }
  }

  lemma {:induction false} ClaimsResolve(ms: seq<Member>)
    ensures forall c :: c in Claims(ms) ==> IsClaim(c)
  {
    hide ClaimsOf, IsClaim;
    if ms != [] {
      ClaimsResolve(ms[..|ms| - 1]);
      MemberClaims(ms[|ms| - 1]);
    }
  }

  lemma {:induction false} FirstWinsResolves(known: map<string, string>, cs: seq<(string, string)>)
    requires IsResolver(known) && forall c :: c in cs ==> IsClaim(c)
    ensures IsResolver(FirstWins(known, cs))
    decreases |cs|
  {
    if cs != [] {
      FirstWinsResolves(if cs[0].0 in known then known else known[cs[0].0 := cs[0].1], cs[1..]);
    }
  }

  /** The username that a given name stands for; without known members, the name itself. */
  function Resolve(v: Shown, known: map<string, string>): Option<string> {
    var name := Strip(TextOf(v));
    if name == "" then None
    else if known == map[] then Some(name)
    else if Lower(name) in known && known[Lower(name)] != "" then Some(known[Lower(name)])
    else None
  }

  // ---------------------------------------------------------------------
  // Lists without repetition
  // ---------------------------------------------------------------------

  /** `a`, and whatever of `b` is not there yet. */
  function Merge(a: seq<string>, b: seq<string>): seq<string> {
    if b == [] then a
    else
      var most := Merge(a, b[..|b| - 1]);
      if b[|b| - 1] in most then most else most + [b[|b| - 1]]
  }

  function Dedup(s: seq<string>): seq<string> {
    Merge([], s)
  }

  ghost predicate NoRepeats(s: seq<string>) {
    forall i, j :: 0 <= i < j < |s| ==> s[i] != s[j]
  }

  lemma {:induction false} MergeIs(a: seq<string>, b: seq<string>)
    ensures forall x :: x in Merge(a, b) <==> x in a || x in b
    ensures NoRepeats(a) ==> NoRepeats(Merge(a, b))
  {
    if b != [] {
      MergeIs(a, b[..|b| - 1]);
      assert b == b[..|b| - 1] + [b[|b| - 1]];
    }
  }

  lemma {:induction false} MergeAppend(a: seq<string>, b: seq<string>, c: seq<string>)
    ensures Merge(a, b + c) == Merge(Merge(a, b), c)
  {
    if c == [] {
      assert b + c == b;
    } else {
      assert (b + c)[..|b + c| - 1] == b + c[..|c| - 1];
      MergeAppend(a, b, c[..|c| - 1]);
    }
  }

  lemma {:induction false} MergeDedup(a: seq<string>, b: seq<string>)
    ensures Merge(a, Dedup(b)) == Merge(a, b)
  {
    if b != [] {
      var most, last := b[..|b| - 1], b[|b| - 1];
      MergeDedup(a, most);
      MergeIs([], most);
      MergeIs(a, most);
      if last !in Dedup(most) {
        assert (Dedup(most) + [last])[..|Dedup(most)|] == Dedup(most);
      }
    }
  }

  function IndexOf(s: seq<string>, x: string): (i: nat)
    requires x in s
    ensures i < |s| && s[i] == x && x !in s[..i]
  {
    if s[0] == x then 0 else 1 + IndexOf(s[1..], x)
  }

  lemma {:induction false} IndexIs(s: seq<string>, i: nat)
    requires i < |s| && s[i] !in s[..i]
    ensures IndexOf(s, s[i]) == i
  {
    if i > 0 {
      assert s[..i][0] == s[0];
      assert s[1..][..i - 1] == s[..i][1..];
      IndexIs(s[1..], i - 1);
    }
  }

  /** Without repetition, each element stands where it first occurred, relative to the others. */
  lemma {:induction false} DedupKeepsOrder(s: seq<string>, i: nat, j: nat)
    requires i < j < |Dedup(s)|
    ensures Dedup(s)[i] in s && Dedup(s)[j] in s && IndexOf(s, Dedup(s)[i]) < IndexOf(s, Dedup(s)[j])
  {
    MergeIs([], s);
    var most, last := s[..|s| - 1], s[|s| - 1];
    MergeIs([], most);
    var x, y := Dedup(s)[i], Dedup(s)[j];
    FirstStays(most, [last], x);
    assert s == most + [last];
    if j < |Dedup(most)| {
      DedupKeepsOrder(most, i, j);
      FirstStays(most, [last], y);
    } else {
      IndexIs(s, |s| - 1);
    }
  }

  lemma FirstStays(s: seq<string>, t: seq<string>, x: string)
    requires x in s
    ensures x in s + t && IndexOf(s + t, x) == IndexOf(s, x)
  {
    var i := IndexOf(s, x);
    assert (s + t)[i] == x && (s + t)[..i] == s[..i];
    IndexIs(s + t, i);
  }

  // ---------------------------------------------------------------------
  // Cleaning
  // ---------------------------------------------------------------------

  /** The usernames that a list of names resolves to, in order. */
  function Names(raw: seq<Shown>, known: map<string, string>): seq<string> {
    if raw == [] then []
    else
      var last := Resolve(raw[|raw| - 1], known);
      Names(raw[..|raw| - 1], known) + if last.Some? then [last.value] else []
  }

  /** `_clean_usernames`: the usernames, each once. */
  function Clean(raw: seq<Shown>, known: map<string, string>): seq<string> {
    Dedup(Names(raw, known))
  }

  method CleanUsernames(raw: seq<Shown>, known: map<string, string>) returns (cleaned: seq<string>)
    ensures cleaned == Clean(raw, known)
  {
    cleaned := [];
    for i := 0 to |raw|
      invariant cleaned == Clean(raw[..i], known)
    {
      assert raw[..i + 1][..i] == raw[..i];
      var resolved := Resolve(raw[i], known);
      if resolved.Some? {
        MergeAppend([], Names(raw[..i], known), [resolved.value]);
        assert [resolved.value][..0] == [];
        if resolved.value !in cleaned {
          cleaned := cleaned + [resolved.value];
        }
      } else {
        assert Names(raw[..i + 1], known) == Names(raw[..i], known);
      }
    }
    assert raw[..|raw|] == raw;
  }

  function Texts(names: seq<string>): (r: seq<Shown>)
    ensures |r| == |names| && forall i :: 0 <= i < |r| ==> r[i] == Text(names[i])
  {
    seq(|names|, i requires 0 <= i < |names| => Text(names[i]))
  }

  ghost predicate LedTo(known: map<string, string>, username: string) {
    exists k :: k in known && known[k] == username
  }

  /** Each username that the resolver leads to resolves to itself. */
  ghost predicate Canonical(known: map<string, string>) {
    forall k :: k in known ==> Lower(known[k]) in known && known[Lower(known[k])] == known[k]
  }

  lemma {:induction false} NamesAreUsernames(raw: seq<Shown>, known: map<string, string>)
    requires IsResolver(known)
    ensures forall n :: n in Names(raw, known) ==> n != "" && Strip(n) == n && (known == map[] || LedTo(known, n))
  {
    if raw != [] {
      NamesAreUsernames(raw[..|raw| - 1], known);
      var v := raw[|raw| - 1];
      StripIsIdempotent(TextOf(v));
      if Resolve(v, known).Some? && known != map[] {
        var k := Lower(Strip(TextOf(v)));
        assert k in known && known[k] == Resolve(v, known).value && IsClaim((k, known[k]));
        assert LedTo(known, known[k]);
      }
    }
  }

  lemma {:induction false} NamesFixed(names: seq<string>, known: map<string, string>)
    requires forall n :: n in names ==> Resolve(Text(n), known) == Some(n)
    ensures Names(Texts(names), known) == names
  {
    if names != [] {
      var most := names[..|names| - 1];
      assert Texts(names)[..|names| - 1] == Texts(most);
      assert names[|names| - 1] in names;
      NamesFixed(most, known);
      assert names == most + [names[|names| - 1]];
    }
  }

  lemma {:induction false} DedupFixed(names: seq<string>)
    requires NoRepeats(names)
    ensures Dedup(names) == names
  {
    if names != [] {
      var most, last := names[..|names| - 1], names[|names| - 1];
      DedupFixed(most);
      assert names == most + [last];
    }
  }

  lemma CleanTwice(raw: seq<Shown>, known: map<string, string>)
    requires IsResolver(known) && Canonical(known)
    ensures Clean(Texts(Clean(raw, known)), known) == Clean(raw, known)
  {
    var names := Clean(raw, known);
    MergeIs([], Names(raw, known));
    NamesAreUsernames(raw, known);
    forall n | n in names ensures Resolve(Text(n), known) == Some(n) {
    }
    NamesFixed(names, known);
    DedupFixed(names);
  }

  ghost predicate IdleAfterFirst(known: map<string, string>) {
    forall raw :: Clean(Texts(Clean(raw, known)), known) == Clean(raw, known)
  }

  /** Cleaning names a second time changes nothing, whatever the names, exactly if the resolver is canonical. */
  lemma SecondCleaningIsIdle(known: map<string, string>)
    requires IsResolver(known)
    ensures IdleAfterFirst(known) <==> Canonical(known)
  {
    hide Clean, Lower, Strip, IsResolver;
    if Canonical(known) {
      forall raw ensures Clean(Texts(Clean(raw, known)), known) == Clean(raw, known) {
        CleanTwice(raw, known);
      }
    } else {
      var k :| k in known && !(Lower(known[k]) in known && known[Lower(known[k])] == known[k]);
      NotIdle(known, k);
    }
  }

  lemma NotIdle(known: map<string, string>, k: string)
    requires IsResolver(known) && k in known && !(Lower(known[k]) in known && known[Lower(known[k])] == known[k])
    ensures Clean(Texts(Clean([Text(k)], known)), known) != Clean([Text(k)], known)
  {
    hide Clean, Lower, Strip;
    assert IsClaim((k, known[k]));
    OneName(k, known);
    OneName(known[k], known);
    assert Texts([known[k]]) == [Text(known[k])];
  }

  lemma OneName(n: string, known: map<string, string>)
    requires known != map[] && n != "" && Strip(n) == n
    ensures Clean([Text(n)], known) == if Lower(n) in known && known[Lower(n)] != "" then [known[Lower(n)]] else []
  {
    var raw := [Text(n)];
    assert raw[..0] == [] && raw[0] == Text(n) && TextOf(raw[0]) == n;
    assert Names(raw[..0], known) == [];
    var resolved := Resolve(raw[0], known);
    assert Names(raw, known) == if resolved.Some? then [resolved.value] else [];
    if resolved.Some? {
      assert [resolved.value][..0] == [] && Merge([], []) == [];
      assert Dedup([resolved.value]) == [resolved.value];
    }
  }

  /** Two members, the second's username being the first's full name. */
  const COLLIDING := [Member(Text("b"), Text("a"), Shown("", false)), Member(Text("a"), Shown("", false), Text("u"))]

  lemma CollidingClaims()
    ensures Claims(COLLIDING) == [("b", "b"), ("a", "b"), ("a", "a"), ("u", "a")]
  {
    assert Strip("a") == "a" && Strip("b") == "b" && Strip("u") == "u" && Strip("") == "";
    assert Lower("a") == "a" && Lower("b") == "b" && Lower("u") == "u";
    hide Strip, Lower;
    assert ClaimsOf(COLLIDING[0]) == [("b", "b"), ("a", "b")];
    assert ClaimsOf(COLLIDING[1]) == [("a", "a"), ("u", "a")];
    assert COLLIDING[..1] == [COLLIDING[0]] && COLLIDING[..1][..0] == [] && COLLIDING[..2] == COLLIDING;
    assert Claims(COLLIDING[..1]) == [("b", "b"), ("a", "b")];
  }

  lemma CollidingResolver()
    ensures Known(COLLIDING) == map["b" := "b", "a" := "b", "u" := "a"]
  {
    CollidingClaims();
    var cs := Claims(COLLIDING);
    assert cs[1..] == [("a", "b"), ("a", "a"), ("u", "a")] && cs[2..] == [("a", "a"), ("u", "a")] && cs[3..] == [("u", "a")];
    var one: map<string, string> := map["b" := "b"];
    var two := one["a" := "b"];
    assert FirstWins(two["u" := "a"], []) == two["u" := "a"];
    assert FirstWins(two, cs[3..]) == two["u" := "a"];
    assert cs[2..][1..] == cs[3..] && cs[1..][1..] == cs[2..];
    assert FirstWins(two, cs[2..]) == two["u" := "a"];
    assert FirstWins(one, cs[1..]) == two["u" := "a"];
    assert FirstWins(map[], cs) == two["u" := "a"];
  }

  /** With these members, what resolves to "a" the first time resolves to "b" the second time. */
  lemma FullNameCollides()
    ensures Clean([Text("u")], Known(COLLIDING)) == ["a"] && Clean([Text("a")], Known(COLLIDING)) == ["b"]
  {
    hide Known, Clean, Claims;
    CollidingResolver();
    assert Strip("a") == "a" && Strip("u") == "u" && Lower("a") == "a" && Lower("u") == "u";
    var known := map["b" := "b", "a" := "b", "u" := "a"];
    assert "u" in known && known["u"] == "a" && known["a"] == "b" && known != map[];
    OneName("u", known);
    OneName("a", known);
  }
}
