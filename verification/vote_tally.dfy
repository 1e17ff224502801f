/** The `genre_votes` dictionary of scripts/similarity_with_aggregation.py: a
    `defaultdict` keyed by subgenre name that, for every top-20 slot of every
    chunk, counts a vote, appends the slot's similarity and overwrites the parent
    and prototype. Names are not checked for uniqueness: two rows with one name
    share one entry, and a chunk can give that entry two votes. */
module VoteTally {
  import opened Basics
  import opened Ranker

  /** A subgenre's vote count, its scores in slot order, and the parent and prototype last seen. */
  datatype VoteEntry = VoteEntry(votes: nat, scores: seq<real>, parent: string, prototype: string)

  /** A dictionary with its keys in insertion order, as Python iterates it. */
  datatype Tally = Tally(order: seq<string>, entries: map<string, VoteEntry>)

  /** The `defaultdict` factory's value. */
  const Fresh: VoteEntry := VoteEntry(0, [], "", "")

  /** One pass of the `for genre in top_20` body. */
  function Record(t: Tally, m: Match): Tally {
    var key := m.subgenre;
    var e := if key in t.entries then t.entries[key] else Fresh;
    Tally(if key in t.entries then t.order else t.order + [key],
          t.entries[key := VoteEntry(e.votes + 1, e.scores + [m.similarity], m.parentGenre, m.prototypeText)])
  }

  /** Every key in order appears once and has at least one vote. */
  ghost predicate ValidTally(t: Tally) {
    && (forall i, j :: 0 <= i < j < |t.order| ==> t.order[i] != t.order[j])
    && (forall n :: n in t.entries <==> n in t.order)
    && (forall n :: n in t.entries ==> t.entries[n].votes == |t.entries[n].scores| >= 1)
  }

  /** The dictionary after recording the given slots in order. */
  function TallyOf(slots: seq<Match>): Tally {
    if slots == [] then Tally([], map[])
    else Record(TallyOf(slots[..|slots| - 1]), slots[|slots| - 1])
  }

  /** Recording slots keeps every key once, with as many scores as votes. */
  lemma {:induction false} TallyOfValid(slots: seq<Match>)
    ensures ValidTally(TallyOf(slots))
  {
    if slots != [] {
      TallyOfValid(slots[..|slots| - 1]);
    }
  }

  // ----- What the dictionary should hold, stated without it -----

  function Names(slots: seq<Match>): seq<string> {
    seq(|slots|, i requires 0 <= i < |slots| => slots[i].subgenre)
  }

  /** How many slots carry the name. */
  function Count(slots: seq<Match>, n: string): nat {
    if slots == [] then 0
    else Count(slots[..|slots| - 1], n) + (if slots[|slots| - 1].subgenre == n then 1 else 0)
  }

  /** The similarities of the slots carrying the name, in slot order. */
  function ScoresFor(slots: seq<Match>, n: string): seq<real> {
    if slots == [] then []
    else ScoresFor(slots[..|slots| - 1], n) + (if slots[|slots| - 1].subgenre == n then [slots[|slots| - 1].similarity] else [])
  }

  /** The last slot carrying the name. */
  function LastIndex(slots: seq<Match>, n: string): (k: nat)
    requires n in Names(slots)
    ensures k < |slots| && slots[k].subgenre == n
    ensures forall j :: k < j < |slots| ==> slots[j].subgenre != n
  {
    var last := |slots| - 1;
    if slots[last].subgenre == n then last
    else
      assert n in Names(slots[..last]) by {
        var i :| 0 <= i < |slots| && Names(slots)[i] == n;
        assert i < last && Names(slots[..last])[i] == n;
      }
      LastIndex(slots[..last], n)
  }

  /** The first position of a name. */
  function FirstIndex(names: seq<string>, n: string): (k: nat)
    requires n in names
    ensures k < |names| && names[k] == n
    ensures forall j :: 0 <= j < k ==> names[j] != n
  {
    var last := |names| - 1;
    if n in names[..last] then FirstIndex(names[..last], n) else last
  }

  /** A name no slot carries has no votes and no scores. */
  lemma {:induction false} AbsentName(slots: seq<Match>, n: string)
    requires n !in Names(slots)
    ensures Count(slots, n) == 0 && ScoresFor(slots, n) == []
  {
    if slots != [] {
      NamesOfPrefix(slots);
      AbsentName(slots[..|slots| - 1], n);
    }
  }

  lemma NamesOfPrefix(slots: seq<Match>)
    requires slots != []
    ensures Names(slots) == Names(slots[..|slots| - 1]) + [slots[|slots| - 1].subgenre]
  {
  }

  /** The dictionary's keys are exactly the names the slots carry. */
  lemma {:induction false} TallyKeys(slots: seq<Match>)
    ensures forall n :: n in TallyOf(slots).entries <==> n in Names(slots)
  {
    if slots != [] {
      TallyKeys(slots[..|slots| - 1]);
      NamesOfPrefix(slots);
    }
  }

  /** For every key, the vote count is the number of slots carrying the name,
      which is also the length of its score list; the scores are those slots'
      similarities in order; the parent and prototype are those of the last
      such slot. */
  lemma {:induction false} TallyEntries(slots: seq<Match>, n: string)
    requires n in TallyOf(slots).entries
    ensures n in Names(slots)
    ensures var e := TallyOf(slots).entries[n];
      && e.votes == Count(slots, n) == |ScoresFor(slots, n)|
      && e.scores == ScoresFor(slots, n)
      && e.parent == slots[LastIndex(slots, n)].parentGenre
      && e.prototype == slots[LastIndex(slots, n)].prototypeText
  {
    TallyKeys(slots);
    var last := |slots| - 1;
    var prev := slots[..last];
    var m := slots[last];
    var t0 := TallyOf(prev);
    NamesOfPrefix(slots);
    TallyKeys(prev);
    if n == m.subgenre {
      if n in t0.entries {
        TallyEntries(prev, n);
      } else {
        AbsentName(prev, n);
      }
    } else {
      TallyEntries(prev, n);
      var k := LastIndex(slots, n);
      var k0 := LastIndex(prev, n);
      assert slots[k0].subgenre == n;
      assert k == k0;
    }
  }

  lemma FirstIndexAppend(names: seq<string>, y: string, a: string)
    requires a in names + [y]
    ensures a in names ==> FirstIndex(names + [y], a) == FirstIndex(names, a)
    ensures a !in names ==> FirstIndex(names + [y], a) == |names|
  {
    assert (names + [y])[..|names|] == names;
  }

  /** The distinct names, each at the place of its first occurrence. */
  function Distinct(names: seq<string>): seq<string> {
    if names == [] then []
    else
      var init, x := names[..|names| - 1], names[|names| - 1];
      if x in init then Distinct(init) else Distinct(init) + [x]
  }

  /** The keys are the distinct names of the slots, in order of first occurrence. */
  lemma {:induction false} TallyOrder(slots: seq<Match>)
    ensures TallyOf(slots).order == Distinct(Names(slots))
  {
    if slots != [] {
      var prev := slots[..|slots| - 1];
      TallyOrder(prev);
      TallyKeys(prev);
      NamesOfPrefix(slots);
      assert Names(slots)[..|slots| - 1] == Names(prev);
    }
  }

  /** `Distinct` holds every name exactly once, ordered by first occurrence. */
  lemma {:induction false} DistinctMeaning(names: seq<string>)
    ensures forall x :: x in Distinct(names) <==> x in names
    ensures forall i, j :: 0 <= i < j < |Distinct(names)| ==> Distinct(names)[i] != Distinct(names)[j]
    ensures forall i, j :: 0 <= i < j < |Distinct(names)| ==>
      FirstIndex(names, Distinct(names)[i]) < FirstIndex(names, Distinct(names)[j])
  {
    if names != [] {
      var init, x := names[..|names| - 1], names[|names| - 1];
      assert names == init + [x];
      DistinctMeaning(init);
      var d0, d := Distinct(init), Distinct(names);
      forall i, j | 0 <= i < j < |d|
        ensures FirstIndex(names, d[i]) < FirstIndex(names, d[j])
      {
        assert d[i] == d0[i];
        FirstIndexAppend(init, x, d[i]);
        FirstIndexAppend(init, x, d[j]);
        if x in init || j < |d0| {
          assert d[j] == d0[j];
        }
      }
    }
  }
}
