/**
 * Deduplication of the injuries feed, which lists the same player several times
 * (once per competition, say). The first record of each player name is kept, in
 * feed order; names are compared exactly, without case or whitespace folding.
 */
module Injuries {

  datatype Player = Player(name: string)

  /** One entry of the feed; `detail` stands for the rest of the record, carried along untouched. */
  datatype Injury = Injury(player: Player, detail: string)

  /** The player names occurring in a list of records. */
  function Names(s: seq<Injury>): set<string>
  {
    set i | 0 <= i < |s| :: s[i].player.name
  }

  /** No two records of `s` share a player name. */
  predicate DistinctNames(s: seq<Injury>)
  {
    forall i, j :: 0 <= i < j < |s| ==> s[i].player.name != s[j].player.name
  }

  /**
   * The deduplicated list, built the way the feed is scanned: a record is appended
   * when its player name did not occur earlier in the input.
   */
  function Dedupe(s: seq<Injury>): (r: seq<Injury>)
    ensures |r| <= |s|
    ensures r == [] <==> s == []
  {
    if s == [] then []
    else
      var init, last := s[..|s| - 1], s[|s| - 1];
      Dedupe(init) + (if last.player.name in Names(init) then [] else [last])
  }

  /** Record `i` is the first one in `s` with its player name. */
  predicate IsFirstOccurrence(s: seq<Injury>, i: nat)
    requires i < |s|
  {
    forall j :: 0 <= j < i ==> s[j].player.name != s[i].player.name
  }

  /** Reference definition: the records among the first `n` that are first occurrences, in order. */
  function FirstOccurrences(s: seq<Injury>, n: nat): seq<Injury>
    requires n <= |s|
  {
    if n == 0 then []
    else FirstOccurrences(s, n - 1) + (if IsFirstOccurrence(s, n - 1) then [s[n - 1]] else [])
  }

  /**
   * `a` is a subsequence of `b`: `a` is obtained from `b` by deleting records,
   * keeping the order of the rest.
   */
  predicate IsSubsequence(a: seq<Injury>, b: seq<Injury>)
    decreases |b|
  {
    if a == [] then true
    else if b == [] then false
    else
      (a[|a| - 1] == b[|b| - 1] && IsSubsequence(a[..|a| - 1], b[..|b| - 1]))
      || IsSubsequence(a, b[..|b| - 1])
  }

  lemma NamesSnoc(p: seq<Injury>, x: Injury)
    ensures Names(p + [x]) == Names(p) + {x.player.name}
  {
    var q := p + [x];
    assert forall i :: 0 <= i < |p| ==> q[i] == p[i];
    assert q[|p|] == x;
  }

  /** Deduplication loses no player: the output names exactly the players of the input. */
  lemma {:induction false} DedupeNames(s: seq<Injury>)
    ensures Names(Dedupe(s)) == Names(s)
  {
    if s != [] {
      var init, last := s[..|s| - 1], s[|s| - 1];
      assert s == init + [last];
      DedupeNames(init);
      NamesSnoc(init, last);
      if last.player.name in Names(init) {
        assert Dedupe(s) == Dedupe(init);
      } else {
        NamesSnoc(Dedupe(init), last);
      }
    }
  }

  /** No player appears twice in the output. */
  lemma {:induction false} DedupeDistinct(s: seq<Injury>)
    ensures DistinctNames(Dedupe(s))
  {
    if s != [] {
      var init, last := s[..|s| - 1], s[|s| - 1];
      DedupeDistinct(init);
      DedupeNames(init);
      var d := Dedupe(init);
      if last.player.name !in Names(init) {
        var r := d + [last];
        forall i, j | 0 <= i < j < |r|
          ensures r[i].player.name != r[j].player.name
        {
          if j == |d| {
            assert r[i] == d[i];
            assert d[i].player.name in Names(d);
          }
        }
      }
    }
  }

  /** The output is the input with records deleted, the rest in their original order. */
  lemma {:induction false} DedupeSubsequence(s: seq<Injury>)
    ensures IsSubsequence(Dedupe(s), s)
  {
    if s != [] {
      var init, last := s[..|s| - 1], s[|s| - 1];
      DedupeSubsequence(init);
      var d := Dedupe(init);
      if last.player.name in Names(init) {
        assert Dedupe(s) == d;
        SubsequenceOfLonger(d, init, last);
        assert init + [last] == s;
      } else {
        var r := d + [last];
        assert r[..|r| - 1] == d;
        assert s[..|s| - 1] == init;
      }
    }
  }

  lemma SubsequenceOfLonger(a: seq<Injury>, b: seq<Injury>, x: Injury)
    requires IsSubsequence(a, b)
    ensures IsSubsequence(a, b + [x])
  {
    assert (b + [x])[..|b|] == b;
  }

  /** The output consists exactly of the first record of every player, in feed order. */
  lemma {:induction false} DedupeIsFirstOccurrences(s: seq<Injury>)
    ensures Dedupe(s) == FirstOccurrences(s, |s|)
  {
    PrefixDedupe(s, |s|);
    assert s[..|s|] == s;
  }

  /** Deduplicating the first `n` records keeps the first occurrences among them. */
  lemma {:induction false} PrefixDedupe(s: seq<Injury>, n: nat)
    requires n <= |s|
    ensures Dedupe(s[..n]) == FirstOccurrences(s, n)
  {
    if n > 0 {
      PrefixDedupe(s, n - 1);
      var p := s[..n];
      assert p[..n - 1] == s[..n - 1];
      assert p[n - 1] == s[n - 1];
      var name := s[n - 1].player.name;
      if name in Names(s[..n - 1]) {
        var j :| 0 <= j < n - 1 && s[..n - 1][j].player.name == name;
        assert s[j].player.name == name;
        assert !IsFirstOccurrence(s, n - 1);
      } else {
        forall j | 0 <= j < n - 1
          ensures s[j].player.name != name
        {
          assert s[..n - 1][j] == s[j];
        }
      }
    }
  }

  /** A list without repeated names is left as it is. */
  lemma {:induction false} DedupeOfDistinct(s: seq<Injury>)
    requires DistinctNames(s)
    ensures Dedupe(s) == s
  {
    if s != [] {
      var init, last := s[..|s| - 1], s[|s| - 1];
      assert DistinctNames(init) by {
        forall i, j | 0 <= i < j < |init|
          ensures init[i].player.name != init[j].player.name
        {
          assert init[i] == s[i] && init[j] == s[j];
        }
      }
      DedupeOfDistinct(init);
      NotInNames(init, last.player.name, s);
      assert init + [last] == s;
    }
  }

  /** In a list with distinct names, the last record's name does not occur before it. */
  lemma NotInNames(init: seq<Injury>, name: string, s: seq<Injury>)
    requires DistinctNames(s) && |s| == |init| + 1 && s[..|init|] == init && s[|init|].player.name == name
    ensures name !in Names(init)
  {
    forall j | 0 <= j < |init|
      ensures init[j].player.name != name
    {
      assert init[j] == s[j];
    }
  }

  /** Deduplicating twice is deduplicating once. */
  lemma DedupeIdempotent(s: seq<Injury>)
    ensures Dedupe(Dedupe(s)) == Dedupe(s)
  {
    DedupeDistinct(s);
    DedupeOfDistinct(Dedupe(s));
  }

  /** A list without repeated names has as many names as records. */
  lemma {:induction false} DistinctNamesCount(s: seq<Injury>)
    requires DistinctNames(s)
    ensures |Names(s)| == |s|
  {
    if s != [] {
      var init, last := s[..|s| - 1], s[|s| - 1];
      assert DistinctNames(init) by {
        forall i, j | 0 <= i < j < |init|
          ensures init[i].player.name != init[j].player.name
        {
          assert init[i] == s[i] && init[j] == s[j];
        }
      }
      DistinctNamesCount(init);
      assert s == init + [last];
      NamesSnoc(init, last);
      NotInNames(init, last.player.name, s);
    }
  }

  /** The output has exactly one record per distinct player of the input. */
  lemma DedupeLength(s: seq<Injury>)
    ensures |Dedupe(s)| == |Names(s)|
  {
    DedupeDistinct(s);
    DedupeNames(s);
    DistinctNamesCount(Dedupe(s));
  }

  /** The feed `[A, B, A]` becomes `[A, B]`; the later record for `A` is dropped even if its details differ. */
  lemma DedupeExample()
    ensures var a, b, a2 := Injury(Player("A"), "knee"), Injury(Player("B"), "ankle"), Injury(Player("A"), "knee, cup");
            Dedupe([a, b, a2]) == [a, b]
  {
    var a, b, a2 := Injury(Player("A"), "knee"), Injury(Player("B"), "ankle"), Injury(Player("A"), "knee, cup");
    var s := [a, b, a2];
    assert s[..2] == [a, b] && [a, b][..1] == [a];
    assert Names([a]) == {"A"} by { NamesSnoc([], a); }
    assert Names([a, b]) == {"A", "B"} by { NamesSnoc([a], b); assert [a] + [b] == [a, b]; }
    assert Dedupe([a]) == [a];
    assert Dedupe([a, b]) == [a, b];
  }

  /** The component's own loop: scan the feed, remembering the names already seen. */
  method RemoveDuplicateInjuries(injuries: seq<Injury>) returns (uniqueInjuries: seq<Injury>)
    ensures uniqueInjuries == Dedupe(injuries)
  {
    uniqueInjuries := [];
    var playerNames: set<string> := {};
    for i := 0 to |injuries|
      invariant uniqueInjuries == Dedupe(injuries[..i])
      invariant playerNames == Names(injuries[..i])
    {
      var injury := injuries[i];
      assert injuries[..i + 1][..i] == injuries[..i];
      if injury.player.name !in playerNames {
        uniqueInjuries := uniqueInjuries + [injury];
        playerNames := playerNames + {injury.player.name};
      }
      NamesSnoc(injuries[..i], injury);
      assert injuries[..i + 1] == injuries[..i] + [injury];
    }
    assert injuries[..|injuries|] == injuries;
  }
}
