/** The ordering step of get_voices: `voice_list.sort(key=name)` and
    `voice_list.sort(key=name, reverse=True)`. Python's sort is stable in both
    directions, so the result is fixed by the input: names in non-decreasing
    (or non-increasing) order, voices with equal names in their input order.
    StableSort is that result, built by inserting each voice in turn, and
    SortInPlace computes it on an array the way the list is sorted in place. */
module VoiceSort {
  import opened Text
  import opened Model

  /** `x` must come before `y`: a smaller name when ascending, a larger one
      when descending. Voices with equal names precede each other neither way. */
  predicate Precedes(ascending: bool, x: McpVoice, y: McpVoice)
  {
    if ascending then StrLt(x.name, y.name) else StrLt(y.name, x.name)
  }

  /** No voice comes after one it must precede. */
  ghost predicate Ordered(s: seq<McpVoice>, ascending: bool)
  {
    forall i, j :: 0 <= i < j < |s| ==> !Precedes(ascending, s[j], s[i])
  }

  /** The voices of `s` named `name`, in their order in `s`. */
  function NameRun(s: seq<McpVoice>, name: string): seq<McpVoice>
  {
    if s == [] then []
    else NameRun(s[..|s| - 1], name) + (if s[|s| - 1].name == name then [s[|s| - 1]] else [])
  }

  /** `x` placed after the last voice of `s` it need not precede. */
  function Insert(s: seq<McpVoice>, x: McpVoice, ascending: bool): seq<McpVoice>
  {
    if s == [] || !Precedes(ascending, x, s[|s| - 1]) then s + [x]
    else Insert(s[..|s| - 1], x, ascending) + [s[|s| - 1]]
  }

  /** The stable sort of `s`: its voices inserted one after the other. */
  function StableSort(s: seq<McpVoice>, ascending: bool): seq<McpVoice>
  {
    if s == [] then [] else Insert(StableSort(s[..|s| - 1], ascending), s[|s| - 1], ascending)
  }

  lemma PrecedesIrreflexive(ascending: bool, x: McpVoice)
    ensures !Precedes(ascending, x, x)
  {
    StrLtIrreflexive(x.name);
  }

  lemma NotPrecedesTransitive(ascending: bool, x: McpVoice, y: McpVoice, z: McpVoice)
    requires !Precedes(ascending, y, x) && !Precedes(ascending, z, y)
    ensures !Precedes(ascending, z, x)
  {
    if ascending {
      StrNotLtTransitive(x.name, y.name, z.name);
    } else {
      StrNotLtTransitive(z.name, y.name, x.name);
    }
  }

  lemma NameRunSnoc(s: seq<McpVoice>, y: McpVoice, name: string)
    ensures NameRun(s + [y], name) == NameRun(s, name) + (if y.name == name then [y] else [])
  {
    assert (s + [y])[..|s|] == s;
  }

  lemma {:induction false} InsertMultiset(s: seq<McpVoice>, x: McpVoice, ascending: bool)
    ensures multiset(Insert(s, x, ascending)) == multiset(s) + multiset{x}
  {
    if s != [] && Precedes(ascending, x, s[|s| - 1]) {
      InsertMultiset(s[..|s| - 1], x, ascending);
      assert s == s[..|s| - 1] + [s[|s| - 1]];
    }
  }

  /** Inserting `x` adds it at the end of the run of its own name: every
      voice it is placed in front of has a different name. */
  lemma {:induction false} InsertNameRun(s: seq<McpVoice>, x: McpVoice, ascending: bool, name: string)
    ensures NameRun(Insert(s, x, ascending), name) == NameRun(s, name) + (if x.name == name then [x] else [])
  {
    var last := |s| - 1;
    if s == [] || !Precedes(ascending, x, s[last]) {
      NameRunSnoc(s, x, name);
    } else {
      var rest, y := s[..last], s[last];
      var t := Insert(rest, x, ascending);
      assert Insert(s, x, ascending) == t + [y];
      assert x.name != y.name by {
        StrLtIrreflexive(x.name);
      }
      calc {
        NameRun(t + [y], name);
      == { NameRunSnoc(t, y, name); }
        NameRun(t, name) + (if y.name == name then [y] else []);
      == { InsertNameRun(rest, x, ascending, name); }
        NameRun(rest, name) + (if x.name == name then [x] else []) + (if y.name == name then [y] else []);
      ==
        NameRun(rest, name) + (if y.name == name then [y] else []) + (if x.name == name then [x] else []);
      == { NameRunSnoc(rest, y, name); assert s == rest + [y]; }
        NameRun(s, name) + (if x.name == name then [x] else []);
      }
    }
  }

  lemma OrderedSnoc(s: seq<McpVoice>, y: McpVoice, ascending: bool)
    requires Ordered(s, ascending)
    requires forall i :: 0 <= i < |s| ==> !Precedes(ascending, y, s[i])
    ensures Ordered(s + [y], ascending)
  {
  }

  /** A voice that precedes no voice of `s` and not `x` precedes none of
      `s` with `x` inserted. */
  lemma NoneAbove(s: seq<McpVoice>, x: McpVoice, y: McpVoice, ascending: bool, t: seq<McpVoice>)
    requires forall k :: 0 <= k < |s| ==> !Precedes(ascending, y, s[k])
    requires !Precedes(ascending, y, x)
    requires multiset(t) == multiset(s) + multiset{x}
    ensures forall i :: 0 <= i < |t| ==> !Precedes(ascending, y, t[i])
  {
    forall i | 0 <= i < |t|
      ensures !Precedes(ascending, y, t[i])
    {
      assert t[i] in multiset(t);
      if t[i] != x {
        assert t[i] in multiset(s);
        var k :| 0 <= k < |s| && s[k] == t[i];
      }
    }
  }

  lemma {:induction false} InsertOrdered(s: seq<McpVoice>, x: McpVoice, ascending: bool)
    requires Ordered(s, ascending)
    ensures Ordered(Insert(s, x, ascending), ascending)
  {
    var last := |s| - 1;
    if s == [] {
    } else if !Precedes(ascending, x, s[last]) {
      forall i | 0 <= i < |s|
        ensures !Precedes(ascending, x, s[i])
      {
        if i < last {
          NotPrecedesTransitive(ascending, s[i], s[last], x);
        }
      }
      OrderedSnoc(s, x, ascending);
    } else {
      var rest := s[..last];
      var t := Insert(rest, x, ascending);
      InsertOrdered(rest, x, ascending);
      InsertMultiset(rest, x, ascending);
      forall k | 0 <= k < |rest|
        ensures !Precedes(ascending, s[last], rest[k])
      {
        assert rest[k] == s[k];
      }
      if ascending {
        StrLtAsymmetric(x.name, s[last].name);
      } else {
        StrLtAsymmetric(s[last].name, x.name);
      }
      NoneAbove(rest, x, s[last], ascending, t);
      OrderedSnoc(t, s[last], ascending);
    }
  }

  /** The sort puts every voice in place. */
  lemma {:induction false} StableSortOrdered(s: seq<McpVoice>, ascending: bool)
    ensures Ordered(StableSort(s, ascending), ascending)
  {
    if s != [] {
      StableSortOrdered(s[..|s| - 1], ascending);
      InsertOrdered(StableSort(s[..|s| - 1], ascending), s[|s| - 1], ascending);
    }
  }

  /** The sort neither loses nor adds a voice. */
  lemma {:induction false} StableSortPermutes(s: seq<McpVoice>, ascending: bool)
    ensures multiset(StableSort(s, ascending)) == multiset(s)
  {
    if s != [] {
      StableSortPermutes(s[..|s| - 1], ascending);
      InsertMultiset(StableSort(s[..|s| - 1], ascending), s[|s| - 1], ascending);
      assert s == s[..|s| - 1] + [s[|s| - 1]];
    }
  }

  /** The sort is stable: the voices of any one name keep their input order. */
  lemma {:induction false} StableSortKeepsRuns(s: seq<McpVoice>, ascending: bool, name: string)
    ensures NameRun(StableSort(s, ascending), name) == NameRun(s, name)
  {
    if s != [] {
      StableSortKeepsRuns(s[..|s| - 1], ascending, name);
      InsertNameRun(StableSort(s[..|s| - 1], ascending), s[|s| - 1], ascending, name);
    }
  }

  // ---- A stable sort's result is fixed by its input ----

  /** A voice in a name's run is a voice of the list with that name. */
  lemma {:induction false} NameRunMember(s: seq<McpVoice>, name: string, x: McpVoice)
    requires x in NameRun(s, name)
    ensures x in s && x.name == name
  {
    var init := s[..|s| - 1];
    if x in NameRun(init, name) {
      NameRunMember(init, name, x);
      assert init == s[..|s| - 1];
    }
  }

  /** The last voice of a list with the same name runs as another is in it. */
  lemma LastInOther(t: seq<McpVoice>, u: seq<McpVoice>)
    requires t != []
    requires forall name :: NameRun(t, name) == NameRun(u, name)
    ensures t[|t| - 1] in u
  {
    var a := t[|t| - 1];
    assert a in NameRun(t, a.name);
    NameRunMember(u, a.name, a);
  }

  /** In an ordered list the last voice must precede none of the voices. */
  lemma LastPrecedesNone(t: seq<McpVoice>, x: McpVoice, ascending: bool)
    requires Ordered(t, ascending) && x in t
    ensures !Precedes(ascending, t[|t| - 1], x)
  {
    var i :| 0 <= i < |t| && t[i] == x;
    if i == |t| - 1 {
      PrecedesIrreflexive(ascending, x);
    }
  }

  /** Two lists with the same name runs whose last voices share a name end
      in the same voice, and agree on their runs without it. */
  lemma DropLast(ti: seq<McpVoice>, a: McpVoice, ui: seq<McpVoice>, b: McpVoice)
    requires a.name == b.name
    requires forall name :: NameRun(ti + [a], name) == NameRun(ui + [b], name)
    ensures a == b
    ensures forall name :: NameRun(ti, name) == NameRun(ui, name)
  {
    NameRunSnoc(ti, a, a.name);
    NameRunSnoc(ui, b, a.name);
    var rt, ru := NameRun(ti, a.name) + [a], NameRun(ui, a.name) + [b];
    assert rt[|rt| - 1] == a && ru[|ru| - 1] == b;
    forall name
      ensures NameRun(ti, name) == NameRun(ui, name)
    {
      NameRunSnoc(ti, a, name);
      NameRunSnoc(ui, b, name);
      assert NameRun(ti + [a], name) == NameRun(ui + [b], name);
      if name == a.name {
        assert rt == ru;
        assert rt[..|rt| - 1] == NameRun(ti, name);
        assert ru[..|ru| - 1] == NameRun(ui, name);
      } else {
        assert NameRun(ti, name) + [] == NameRun(ti, name);
        assert NameRun(ui, name) + [] == NameRun(ui, name);
      }
    }
  }

  /** Two lists ordered the same way, whose voices of each name come in the
      same order, are equal. */
  lemma {:induction false} RunsDetermineOrder(t: seq<McpVoice>, u: seq<McpVoice>, ascending: bool)
    requires Ordered(t, ascending) && Ordered(u, ascending)
    requires forall name :: NameRun(t, name) == NameRun(u, name)
    ensures t == u
    decreases |t|
  {
    if t != [] {
      LastInOther(t, u);
    }
    if u != [] {
      LastInOther(u, t);
    }
    if t != [] && u != [] {
      var ti, a := t[..|t| - 1], t[|t| - 1];
      var ui, b := u[..|u| - 1], u[|u| - 1];
      LastPrecedesNone(t, b, ascending);
      LastPrecedesNone(u, a, ascending);
      StrLtTotal(a.name, b.name);
      assert a.name == b.name;
      assert t == ti + [a] && u == ui + [b];
      DropLast(ti, a, ui, b);
      RunsDetermineOrder(ti, ui, ascending);
    }
  }

  /** Any ordering of `s` by name that keeps the voices of each name in
      their input order is the stable sort of `s`: every stable sort, Python's
      included, gives the same list. */
  lemma StableSortUnique(s: seq<McpVoice>, t: seq<McpVoice>, ascending: bool)
    requires Ordered(t, ascending)
    requires forall name :: NameRun(t, name) == NameRun(s, name)
    ensures t == StableSort(s, ascending)
  {
    StableSortOrdered(s, ascending);
    forall name
      ensures NameRun(t, name) == NameRun(StableSort(s, ascending), name)
    {
      StableSortKeepsRuns(s, ascending, name);
    }
    RunsDetermineOrder(t, StableSort(s, ascending), ascending);
  }

  /** Insertion stops right after the last voice `x` need not precede: if
      `x` must precede every voice from position `j` on, but not the one just
      before `j`, then `x` lands at position `j`. */
  lemma {:induction false} InsertLandsAt(s: seq<McpVoice>, x: McpVoice, ascending: bool, j: nat)
    requires j <= |s| && (j == 0 || !Precedes(ascending, x, s[j - 1]))
    requires forall k :: j <= k < |s| ==> Precedes(ascending, x, s[k])
    ensures Insert(s, x, ascending) == s[..j] + [x] + s[j..]
    decreases |s|
  {
    if j < |s| {
      var rest := s[..|s| - 1];
      InsertLandsAt(rest, x, ascending, j);
      assert rest[..j] == s[..j];
      assert s[j..] == rest[j..] + [s[|s| - 1]];
    } else {
      assert s[..j] == s;
    }
  }

  /** A sequence that holds `s` with `x` placed at position `j`. */
  lemma PlacedAt(t: seq<McpVoice>, s: seq<McpVoice>, x: McpVoice, j: nat)
    requires |t| == |s| + 1 && j <= |s|
    requires forall k :: 0 <= k < j ==> t[k] == s[k]
    requires t[j] == x
    requires forall k :: j < k < |t| ==> t[k] == s[k - 1]
    ensures t == s[..j] + [x] + s[j..]
  {
    var expected := s[..j] + [x] + s[j..];
    assert forall k :: 0 <= k < j ==> expected[k] == s[k];
    assert forall k :: j < k < |t| ==> expected[k] == s[k - 1];
  }

  /** Moves every voice of `a[..i]` that `x` must precede one place to the
      right, from the back, and returns the gap left where `x` belongs. */
  method MakeRoom(a: array<McpVoice>, i: nat, x: McpVoice, ascending: bool) returns (j: nat)
    requires i < a.Length
    modifies a
    ensures j <= i
    ensures forall k :: 0 <= k < j ==> a[k] == old(a[k])
    ensures forall k :: j < k <= i ==> a[k] == old(a[k - 1])
    ensures forall k :: i < k < a.Length ==> a[k] == old(a[k])
    ensures j == 0 || !Precedes(ascending, x, old(a[j - 1]))
    ensures forall k :: j <= k < i ==> Precedes(ascending, x, old(a[k]))
  {
    j := i;
    while j > 0 && Precedes(ascending, x, a[j - 1])
      invariant j <= i
      invariant forall k :: 0 <= k < j ==> a[k] == old(a[k])
      invariant forall k :: j < k <= i ==> a[k] == old(a[k - 1])
      invariant forall k :: i < k < a.Length ==> a[k] == old(a[k])
      invariant forall k :: j <= k < i ==> Precedes(ascending, x, old(a[k]))
    {
      a[j] := a[j - 1];
      j := j - 1;
    }
  }

  /** One step of the sort: `a[..i]` is already sorted, and `a[i]` moves
      left past the voices it must precede. */
  method InsertAt(a: array<McpVoice>, i: nat, ascending: bool)
    requires i < a.Length
    modifies a
    ensures a[..i + 1] == Insert(old(a[..i]), old(a[i]), ascending)
    ensures forall k :: i < k < a.Length ==> a[k] == old(a[k])
  {
    ghost var sorted := a[..i];
    var x := a[i];
    var j := MakeRoom(a, i, x, ascending);
    a[j] := x;
    InsertLandsAt(sorted, x, ascending, j);
    PlacedAt(a[..i + 1], sorted, x, j);
  }

  lemma StableSortPrefix(s: seq<McpVoice>, i: nat, ascending: bool)
    requires i < |s|
    ensures StableSort(s[..i + 1], ascending) == Insert(StableSort(s[..i], ascending), s[i], ascending)
  {
    assert s[..i + 1][..i] == s[..i];
  }

  /** Sorts `a` in place; the array ends as the stable sort of what it held. */
  method SortInPlace(a: array<McpVoice>, ascending: bool)
    modifies a
    ensures a[..] == StableSort(old(a[..]), ascending)
  {
    ghost var input := a[..];
    var i := 0;
    while i < a.Length
      invariant 0 <= i <= a.Length
      invariant a[..i] == StableSort(input[..i], ascending)
      invariant forall k :: i <= k < a.Length ==> a[k] == input[k]
    {
      InsertAt(a, i, ascending);
      StableSortPrefix(input, i, ascending);
      i := i + 1;
    }
    assert input[..a.Length] == input;
  }
}
