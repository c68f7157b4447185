/**
  What the names in a work-item tree stand for (src/capabilities/tools/workitem_tools.py): which member a
  name leads to, and who is listed for an item.
 */
module WorkItemNames {
  import opened Common
  import opened Events
  import opened WorkItemValidation
  import opened WorkItemRollup
  import opened WorkItemTrees

  // ---------------------------------------------------------------------
  // Text
  // ---------------------------------------------------------------------

  /** `r` is `s` without the white space around it. */
  ghost predicate Trims(s: string, r: string) {
    exists i, j :: 0 <= i <= j <= |s| && r == s[i..j]
      && (forall k :: 0 <= k < i ==> IsSpace(s[k])) && (forall k :: j <= k < |s| ==> IsSpace(s[k]))
  }

  lemma TrimsFront(s: string, r: string)
    requires s != "" && IsSpace(s[0]) && Trims(s[1..], r)
    ensures Trims(s, r)
  {
    hide IsSpace;
    var t := s[1..];
    var i, j :| 0 <= i <= j <= |t| && r == t[i..j]
      && (forall k :: 0 <= k < i ==> IsSpace(t[k])) && (forall k :: j <= k < |t| ==> IsSpace(t[k]));
    assert r == s[i + 1..j + 1];
    forall k | 0 <= k < |s| && (k < i + 1 || j + 1 <= k) ensures IsSpace(s[k]) {
      assert k > 0 ==> s[k] == t[k - 1];
    }
  }

  lemma TrimsBack(s: string, r: string)
    requires s != "" && IsSpace(s[|s| - 1]) && Trims(s[..|s| - 1], r)
    ensures Trims(s, r)
  {
    hide IsSpace;
    var t := s[..|s| - 1];
    var i, j :| 0 <= i <= j <= |t| && r == t[i..j]
      && (forall k :: 0 <= k < i ==> IsSpace(t[k])) && (forall k :: j <= k < |t| ==> IsSpace(t[k]));
    assert r == s[i..j];
    forall k | 0 <= k < |s| && (k < i || j <= k) ensures IsSpace(s[k]) {
      assert k < |t| ==> s[k] == t[k];
    }
  }

  /** Stripping takes away white space at both ends and nothing else. */
  lemma {:induction false} StripTrims(s: string)
    ensures Trims(s, Strip(s))
  {
    hide Trims, IsSpace;
    if s != "" && IsSpace(s[0]) {
      StripTrims(s[1..]);
      TrimsFront(s, Strip(s));
    } else if s != "" && IsSpace(s[|s| - 1]) {
      StripTrims(s[..|s| - 1]);
      TrimsBack(s, Strip(s));
    } else {
      TrimsNothing(s);
    }
  }

  lemma TrimsNothing(s: string)
    ensures Trims(s, s)
  {
    assert s[0..|s|] == s;
  }

  /** A title is blank exactly if it does not count as true or shows nothing but white space. */
  lemma BlankIs(title: Shown)
    ensures Blank(title) <==> !title.truthy || forall i :: 0 <= i < |title.text| ==> IsSpace(title.text[i])
  {
    hide IsSpace;
  }

  const CAPITALS := "ABCDEFGHIJKLMNOPQRSTUVWXYZ"
  const SMALL := "abcdefghijklmnopqrstuvwxyz"

  /** Each capital becomes its small letter; everything else stays. */
  lemma LowerIs(s: string, i: nat)
    requires i < |s|
    ensures s[i] !in CAPITALS ==> Lower(s)[i] == s[i]
    ensures forall k :: 0 <= k < 26 && s[i] == CAPITALS[k] ==> Lower(s)[i] == SMALL[k]
  {
    if 'A' <= s[i] <= 'Z' {
      var k := s[i] as int - 'A' as int;
      Alphabet(k);
      forall l | 0 <= l < 26 && s[i] == CAPITALS[l] ensures l == k {
        Alphabet(l);
      }
    } else {
      forall l | 0 <= l < 26 ensures s[i] != CAPITALS[l] {
        Alphabet(l);
      }
    }
  }

  lemma Alphabet(k: nat)
    requires k < 26
    ensures CAPITALS[k] as int == 'A' as int + k && SMALL[k] as int == 'a' as int + k
  {
  }

  // ---------------------------------------------------------------------
  // Members
  // ---------------------------------------------------------------------

  predicate HasText(v: Shown) {
    v.truthy && Strip(v.text) != ""
  }

  /** A member with a username is found under it, under the full name and under the user id, in lower case. */
  predicate FoundUnder(m: Member, key: string) {
    && HasText(m.username)
    && (|| key == Lower(Strip(m.username.text))
        || (HasText(m.fullName) && key == Lower(Strip(m.fullName.text)))
        || (HasText(m.userId) && key == Lower(Strip(m.userId.text))))
  }

  /** Member number `i` is the first to be found under `key`. */
  predicate FirstFound(ms: seq<Member>, key: string, i: nat) {
    i < |ms| && FoundUnder(ms[i], key) && forall j :: 0 <= j < i ==> !FoundUnder(ms[j], key)
  }

  lemma ClaimsAre(m: Member, known: map<string, string>, key: string)
    ensures var after := FirstWins(known, ClaimsOf(m));
            if key in known then key in after && after[key] == known[key]
            else (key in after <==> FoundUnder(m, key)) && (key in after ==> after[key] == Strip(m.username.text))
  {
    hide Strip, Lower;
    assert Strip("") == "" by { StripTrims(""); }
    var username := Strip(TextOf(m.username));
    if username != "" {
      FirstWinsAppend(known, [(Lower(username), username)], ClaimOf(m.fullName, username));
      FirstWinsAppend(known, [(Lower(username), username)] + ClaimOf(m.fullName, username), ClaimOf(m.userId, username));
      assert ClaimsOf(m) == [(Lower(username), username)] + ClaimOf(m.fullName, username) + ClaimOf(m.userId, username);
      OneClaim(known, Lower(username), username);
      var one := FirstWins(known, [(Lower(username), username)]);
      OneClaimOf(one, m.fullName, username);
      OneClaimOf(FirstWins(one, ClaimOf(m.fullName, username)), m.userId, username);
    }
  }

  lemma OneClaim(known: map<string, string>, key: string, username: string)
    ensures FirstWins(known, [(key, username)]) == if key in known then known else known[key := username]
  {
    assert [(key, username)][1..] == [];
  }

  lemma OneClaimOf(known: map<string, string>, name: Shown, username: string)
    ensures FirstWins(known, ClaimOf(name, username)) ==
            if !HasText(name) || Lower(Strip(name.text)) in known then known else known[Lower(Strip(name.text)) := username]
  {
    assert Strip("") == "" by { StripTrims(""); }
    if HasText(name) {
      OneClaim(known, Lower(Strip(name.text)), username);
    }
  }

  /** The resolver leads from a name to the username of the first member that is found under it. */
  lemma {:induction false} ResolverIsExact(ms: seq<Member>, key: string)
    ensures key in Known(ms) <==> exists i :: FirstFound(ms, key, i)
    ensures forall i: nat :: FirstFound(ms, key, i) ==> key in Known(ms) && Known(ms)[key] == Strip(ms[i].username.text)
  {
    hide FoundUnder, ClaimsOf;
    if ms != [] {
      var most, n := ms[..|ms| - 1], |ms| - 1;
      ResolverIsExact(most, key);
      FirstWinsAppend(map[], Claims(most), ClaimsOf(ms[n]));
      ClaimsAre(ms[n], Known(most), key);
      assert forall j :: 0 <= j < n ==> most[j] == ms[j];
      assert forall i: nat :: FirstFound(most, key, i) ==> FirstFound(ms, key, i);
      assert forall i: nat :: FirstFound(ms, key, i) && i < n ==> FirstFound(most, key, i);
      if key !in Known(most) {
        NotFound(most, key);
        if FoundUnder(ms[n], key) {
          assert FirstFound(ms, key, n);
        }
      } else {
        var i :| FirstFound(most, key, i);
      }
    }
  }

  lemma {:induction false} NotFound(ms: seq<Member>, key: string)
    requires forall i: nat :: !FirstFound(ms, key, i)
    ensures forall j :: 0 <= j < |ms| ==> !FoundUnder(ms[j], key)
  {
    hide FoundUnder;
    if ms != [] {
      var most, n := ms[..|ms| - 1], |ms| - 1;
      assert forall i: nat :: FirstFound(most, key, i) ==> FirstFound(ms, key, i);
      NotFound(most, key);
      assert forall j :: 0 <= j < n ==> most[j] == ms[j];
      assert !FirstFound(ms, key, n);
    }
  }

  /**
    The username of a name: with members, that of the first one found under it; without any, the name
    itself; none for a name without text.
   */
  lemma NameLeadsTo(v: Shown, ms: seq<Member>)
    ensures !HasText(v) ==> Resolve(v, Known(ms)) == None
    ensures HasText(v) && Known(ms) == map[] ==> Resolve(v, Known(ms)) == Some(Strip(v.text))
    ensures Known(ms) == map[] <==> forall i :: 0 <= i < |ms| ==> !HasText(ms[i].username)
    ensures HasText(v) ==> forall i: nat :: FirstFound(ms, Lower(Strip(v.text)), i) ==> Resolve(v, Known(ms)) == Some(Strip(ms[i].username.text))
    ensures HasText(v) && Known(ms) != map[] && Resolve(v, Known(ms)).Some? ==> exists i :: FirstFound(ms, Lower(Strip(v.text)), i)
  {
    hide Strip, Lower, FoundUnder, Known;
    assert Strip("") == "" by { StripTrims(""); }
    if HasText(v) {
      ResolverIsExact(ms, Lower(Strip(v.text)));
      forall i: nat | FirstFound(ms, Lower(Strip(v.text)), i) ensures HasText(ms[i].username) {
        FoundHasName(ms[i], Lower(Strip(v.text)));
      }
    }
    NobodyKnown(ms);
  }

  lemma FoundHasName(m: Member, key: string)
    requires FoundUnder(m, key)
    ensures HasText(m.username)
  {
  }

  lemma NobodyKnown(ms: seq<Member>)
    ensures Known(ms) == map[] <==> forall i :: 0 <= i < |ms| ==> !HasText(ms[i].username)
  {
    hide Strip, Lower, Known;
    if i :| 0 <= i < |ms| && HasText(ms[i].username) {
      var key := Lower(Strip(ms[i].username.text));
      assert FoundUnder(ms[i], key);
      ResolverIsExact(ms, key);
      if key !in Known(ms) {
        NotFound(ms, key);
      }
    } else {
      forall key ensures key !in Known(ms) {
        ResolverIsExact(ms, key);
      }
    }
  }

  // ---------------------------------------------------------------------
  // Who is listed
  // ---------------------------------------------------------------------

  /** Is `name` what one of the listed names resolves to? */
  ghost predicate Lists(raw: seq<Shown>, known: map<string, string>, name: string) {
    exists i :: 0 <= i < |raw| && Resolve(raw[i], known) == Some(name)
  }

  /** Does `name` work on the arriving node, or on any node below it? */
  ghost predicate WorksOn(v: Value, known: map<string, string>, name: string)
    decreases v
  {
    v.Node? && (Lists(v.assignees, known, name)
                || (v.children.Array? && exists i :: 0 <= i < |v.children.items| && WorksOn(v.children.items[i], known, name)))
  }

  lemma {:induction false} NamesAre(raw: seq<Shown>, known: map<string, string>, name: string)
    ensures name in Names(raw, known) <==> Lists(raw, known, name)
  {
    hide Resolve;
    if raw != [] {
      NamesAre(raw[..|raw| - 1], known, name);
    }
  }

  lemma {:induction false} NamesBelowAre(ts: seq<Tree>, known: map<string, string>, name: string)
    ensures name in NamesBelow(ts, known) <==> exists i :: 0 <= i < |ts| && name in NamesIn(ts[i], known)
  {
    hide NamesIn;
    if ts != [] {
      NamesBelowAre(ts[..|ts| - 1], known, name);
    }
  }

  lemma {:induction false} WorkersAre(v: Value, known: map<string, string>, name: string)
    requires WellTypedNode(v)
    ensures name in NamesIn(TreeOf(v), known) <==> WorksOn(v, known, name)
    decreases v
  {
    hide Names, Resolve, Blank;
    var t := TreeOf(v);
    NamesAre(v.assignees, known, name);
    NamesBelowAre(t.children, known, name);
    if v.children.Array? {
      forall i | 0 <= i < |v.children.items|
        ensures name in NamesIn(t.children[i], known) <==> WorksOn(v.children.items[i], known, name)
      {
        WorkersAre(v.children.items[i], known, name);
      }
    }
  }

  /** Everyone, and only those, who work on the arriving node or below it are listed for it; each once, its own names first. */
  lemma EveryoneIs(v: Value, known: map<string, string>, name: string)
    requires WellTypedNode(v)
    ensures name in Everyone(TreeOf(v), known) <==> WorksOn(v, known, name)
    ensures NoRepeats(Everyone(TreeOf(v), known)) && Clean(v.assignees, known) <= Everyone(TreeOf(v), known)
  {
    hide Names, NamesBelow, WorksOn, Merge, Blank;
    var t := TreeOf(v);
    WorkersAre(v, known, name);
    MergeIs([], NamesIn(t, known));
    MergeAppend([], Names(t.assignees, known), NamesBelow(t.children, known));
    MergeExtends(Clean(t.assignees, known), NamesBelow(t.children, known));
  }

  lemma {:induction false} MergeExtends(a: seq<string>, b: seq<string>)
    ensures a <= Merge(a, b)
  {
    if b != [] {
      MergeExtends(a, b[..|b| - 1]);
    }
  }
}
