/**
  The list transformations behind the app-level `myHangouts` setters
  (App.tsx:1234-1241): prepend on create, `map` with object spread on update,
  `filter` on remove.
 */
module HangoutList {
  import opened Model

  /** The ids occurring in a list of hangouts. */
  function Ids(s: seq<Hangout>): set<string> {
    set h | h in s :: h.id
  }

  /** `prev.map(h => h.id === id ? { ...h, ...p } : h)` */
  function UpdateById(s: seq<Hangout>, id: string, p: Patch): (r: seq<Hangout>)
    ensures |r| == |s|
  {
    if s == [] then []
    else [if s[0].id == id then Merge(s[0], p) else s[0]] + UpdateById(s[1..], id, p)
  }

  /** `prev.filter(h => h.id !== id)` */
  function RemoveById(s: seq<Hangout>, id: string): (r: seq<Hangout>)
    ensures |r| <= |s|
  {
    if s == [] then []
    else if s[0].id == id then RemoveById(s[1..], id)
    else [s[0]] + RemoveById(s[1..], id)
  }

  /** Update touches exactly the positions whose id matches: each of them gets
      the patch spread over it, every other position keeps its hangout. */
  lemma {:induction false} UpdateAt(s: seq<Hangout>, id: string, p: Patch, i: nat)
    requires i < |s|
    ensures UpdateById(s, id, p)[i] == if s[i].id == id then Merge(s[i], p) else s[i]
  {
    if i > 0 {
      UpdateAt(s[1..], id, p, i - 1);
    }
  }

  /** The same, for all positions at once; length and order are kept. */
  lemma UpdatePointwise(s: seq<Hangout>, id: string, p: Patch)
    ensures |UpdateById(s, id, p)| == |s|
    ensures forall i :: 0 <= i < |s| ==>
      UpdateById(s, id, p)[i] == if s[i].id == id then Merge(s[i], p) else s[i]
  {
    forall i | 0 <= i < |s|
      ensures UpdateById(s, id, p)[i] == if s[i].id == id then Merge(s[i], p) else s[i]
    {
      UpdateAt(s, id, p, i);
    }
  }

  /** Updating an id that is not in the list leaves the list as it was. */
  lemma {:induction false} UpdateAbsent(s: seq<Hangout>, id: string, p: Patch)
    requires id !in Ids(s)
    ensures UpdateById(s, id, p) == s
  {
    if s != [] {
      assert s[0] in s;
      assert Ids(s[1..]) <= Ids(s) by {
        forall h | h in s[1..] ensures h in s { }
      }
      UpdateAbsent(s[1..], id, p);
    }
  }

  /** A later update whose partial supplies every field the earlier one
      supplied wins outright, provided the earlier one does not rename the
      hangout away from `id`. */
  lemma {:induction false} UpdateLastWins(s: seq<Hangout>, id: string, p1: Patch, p2: Patch)
    requires p1.id.None? && Covers(p2, p1)
    ensures UpdateById(UpdateById(s, id, p1), id, p2) == UpdateById(s, id, p2)
  {
    if s != [] {
      MergeCovered(s[0], p1, p2);
      UpdateLastWins(s[1..], id, p1, p2);
    }
  }

  /** `idx` lists, strictly increasing, the positions of `s` whose hangouts
      survive removing `id`, and a position survives exactly when its id differs. */
  ghost predicate Survivors(s: seq<Hangout>, id: string, idx: seq<nat>) {
    && |idx| == |RemoveById(s, id)|
    && (forall k :: 0 <= k < |idx| ==> idx[k] < |s| && RemoveById(s, id)[k] == s[idx[k]])
    && (forall k, l :: 0 <= k < l < |idx| ==> idx[k] < idx[l])
    && (forall i :: 0 <= i < |s| ==> (s[i].id != id <==> i in idx))
  }

  /** Remove keeps exactly the hangouts whose id differs from `id`, in their
      original order. */
  lemma {:induction false} RemovePositions(s: seq<Hangout>, id: string) returns (idx: seq<nat>)
    ensures |idx| == |RemoveById(s, id)|
    ensures forall k :: 0 <= k < |idx| ==> idx[k] < |s| && RemoveById(s, id)[k] == s[idx[k]]
    ensures forall k, l :: 0 <= k < l < |idx| ==> idx[k] < idx[l]
    ensures forall i :: 0 <= i < |s| ==> (s[i].id != id <==> i in idx)
  {
    if s == [] {
      idx := [];
    } else {
      var rest := RemovePositions(s[1..], id);
      idx := SurvivorsCons(s, id, rest);
    }
  }

  /** One step of `RemovePositions`: from the survivors of the tail to those of the list. */
  lemma SurvivorsCons(s: seq<Hangout>, id: string, rest: seq<nat>) returns (idx: seq<nat>)
    requires s != [] && Survivors(s[1..], id, rest)
    ensures Survivors(s, id, idx)
  {
    var shifted := ShiftSurvivors(s, id, rest);
    if s[0].id == id {
      idx := shifted;
      SurvivorsDropHead(s, id, rest, shifted);
    } else {
      idx := [0] + shifted;
      SurvivorsKeepHead(s, id, rest, shifted);
    }
  }

  /** The head is removed: the survivors are the tail's, renumbered. */
  lemma SurvivorsDropHead(s: seq<Hangout>, id: string, rest: seq<nat>, shifted: seq<nat>)
    requires s != [] && s[0].id == id && Survivors(s[1..], id, rest)
    requires |shifted| == |rest| && forall k :: 0 <= k < |shifted| ==> 0 < shifted[k] == rest[k] + 1 < |s|
    requires forall k, l :: 0 <= k < l < |shifted| ==> shifted[k] < shifted[l]
    requires forall i :: 1 <= i < |s| ==> (s[i].id != id <==> i in shifted)
    requires 0 !in shifted
    ensures Survivors(s, id, shifted)
  {
    ghost var r' := RemoveById(s[1..], id);
    forall k | 0 <= k < |shifted| ensures RemoveById(s, id)[k] == s[shifted[k]] {
      assert r'[k] == s[1..][rest[k]];
    }
  }

  /** The head survives: it comes first, then the tail's survivors, renumbered. */
  lemma SurvivorsKeepHead(s: seq<Hangout>, id: string, rest: seq<nat>, shifted: seq<nat>)
    requires s != [] && s[0].id != id && Survivors(s[1..], id, rest)
    requires |shifted| == |rest| && forall k :: 0 <= k < |shifted| ==> 0 < shifted[k] == rest[k] + 1 < |s|
    requires forall k, l :: 0 <= k < l < |shifted| ==> shifted[k] < shifted[l]
    requires forall i :: 1 <= i < |s| ==> (s[i].id != id <==> i in shifted)
    ensures Survivors(s, id, [0] + shifted)
  {
    ConsIncreasing(shifted);
    KeepHeadElements(s, id, rest, shifted);
    KeepHeadMembers(s, id, shifted);
  }

  lemma KeepHeadElements(s: seq<Hangout>, id: string, rest: seq<nat>, shifted: seq<nat>)
    requires s != [] && s[0].id != id
    requires |rest| == |RemoveById(s[1..], id)|
    requires forall k :: 0 <= k < |rest| ==> rest[k] < |s| - 1 && RemoveById(s[1..], id)[k] == s[1..][rest[k]]
    requires |shifted| == |rest| && forall k :: 0 <= k < |shifted| ==> shifted[k] == rest[k] + 1
    ensures |[0] + shifted| == |RemoveById(s, id)|
    ensures forall k :: 0 <= k < |[0] + shifted| ==>
      ([0] + shifted)[k] < |s| && RemoveById(s, id)[k] == s[([0] + shifted)[k]]
  {
    ghost var r' := RemoveById(s[1..], id);
    var idx := [0] + shifted;
    assert RemoveById(s, id) == [s[0]] + r';
    forall k | 0 <= k < |idx| ensures idx[k] < |s| && RemoveById(s, id)[k] == s[idx[k]] {
      if k > 0 {
        assert idx[k] == shifted[k - 1];
        assert RemoveById(s, id)[k] == r'[k - 1] == s[1..][rest[k - 1]];
      }
    }
  }

  lemma KeepHeadMembers(s: seq<Hangout>, id: string, shifted: seq<nat>)
    requires s != [] && s[0].id != id
    requires forall i :: 1 <= i < |s| ==> (s[i].id != id <==> i in shifted)
    ensures forall i :: 0 <= i < |s| ==> (s[i].id != id <==> i in [0] + shifted)
  {
    forall i | 0 <= i < |s| ensures s[i].id != id <==> i in [0] + shifted {
      if i > 0 {
        assert i in [0] + shifted <==> i in shifted;
      }
    }
  }

  /** Putting 0 in front of a strictly increasing sequence of positive numbers keeps it strictly increasing. */
  lemma ConsIncreasing(shifted: seq<nat>)
    requires forall k :: 0 <= k < |shifted| ==> 0 < shifted[k]
    requires forall k, l :: 0 <= k < l < |shifted| ==> shifted[k] < shifted[l]
    ensures forall k, l :: 0 <= k < l < |[0] + shifted| ==> ([0] + shifted)[k] < ([0] + shifted)[l]
  {
    var idx := [0] + shifted;
    forall k, l | 0 <= k < l < |idx| ensures idx[k] < idx[l] {
      assert idx[l] == shifted[l - 1];
      if k > 0 {
        assert idx[k] == shifted[k - 1];
      }
    }
  }

  /** The survivors of the tail, renumbered as positions of the whole list. */
  lemma ShiftSurvivors(s: seq<Hangout>, id: string, rest: seq<nat>) returns (shifted: seq<nat>)
    requires s != [] && Survivors(s[1..], id, rest)
    ensures |shifted| == |rest| == |RemoveById(s[1..], id)|
    ensures forall k :: 0 <= k < |shifted| ==> 0 < shifted[k] == rest[k] + 1 < |s|
    ensures forall k, l :: 0 <= k < l < |shifted| ==> shifted[k] < shifted[l]
    ensures forall i :: 1 <= i < |s| ==> (s[i].id != id <==> i in shifted)
    ensures 0 !in shifted
  {
    shifted := Shift(rest);
    forall i | 1 <= i < |s| ensures s[i].id != id <==> i in shifted {
      assert s[i] == s[1..][i - 1];
      ShiftMember(rest, i - 1);
    }
  }

  /** Every position plus one. */
  function Shift(rest: seq<nat>): seq<nat> {
    seq(|rest|, k requires 0 <= k < |rest| => rest[k] + 1)
  }

  lemma ShiftMember(rest: seq<nat>, i: nat)
    ensures i + 1 in Shift(rest) <==> i in rest
  {
    var shifted := Shift(rest);
    if i + 1 in shifted {
      var k :| 0 <= k < |shifted| && shifted[k] == i + 1;
      assert rest[k] == i;
    }
    if i in rest {
      var k :| 0 <= k < |rest| && rest[k] == i;
      assert shifted[k] == i + 1;
    }
  }

  /** Remove keeps a hangout exactly when it was in the list with another id. */
  lemma {:induction false} RemoveMembers(s: seq<Hangout>, id: string)
    ensures forall h :: h in RemoveById(s, id) <==> h in s && h.id != id
  {
    if s != [] {
      RemoveMembers(s[1..], id);
      assert s == [s[0]] + s[1..];
    }
  }

  /** Removing an id that is not in the list is a no-op. */
  lemma {:induction false} RemoveAbsent(s: seq<Hangout>, id: string)
    requires id !in Ids(s)
    ensures RemoveById(s, id) == s
  {
    if s != [] {
      assert s[0] in s;
      assert Ids(s[1..]) <= Ids(s) by {
        forall h | h in s[1..] ensures h in s { }
      }
      RemoveAbsent(s[1..], id);
    }
  }

  /** After a removal the id is gone, so removing twice is removing once. */
  lemma RemoveIdempotent(s: seq<Hangout>, id: string)
    ensures id !in Ids(RemoveById(s, id))
    ensures RemoveById(RemoveById(s, id), id) == RemoveById(s, id)
  {
    RemoveMembers(s, id);
    RemoveAbsent(RemoveById(s, id), id);
  }

  /** Creating a hangout under an id the list does not hold, then removing
      that id, gives back the list as it was. */
  lemma CreateThenRemove(s: seq<Hangout>, h: Hangout)
    requires h.id !in Ids(s)
    ensures RemoveById([h] + s, h.id) == s
  {
    assert ([h] + s)[1..] == s;
    RemoveAbsent(s, h.id);
  }
}
