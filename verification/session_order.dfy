/**
 * The order of the session list after a pin toggle (App.tsx, `pinSession`):
 * pinned sessions first, and within each group the most recently updated
 * first. The list is sorted in place.
 */
module SessionOrder {
  import opened ChatTypes

  /** `a` may stand before `b`: the comparator of `pinSession` does not put
      `b` strictly first. */
  predicate Precedes(a: ChatSession, b: ChatSession) {
    (a.pinned && !b.pinned) || (a.pinned == b.pinned && a.lastUpdated >= b.lastUpdated)
  }

  /** The comparator's answer for `a` against `b`: negative when `a` goes
      first, positive when `b` does, zero when they tie. */
  function Compare(a: ChatSession, b: ChatSession): (r: int)
    ensures r <= 0 <==> Precedes(a, b)
    ensures r == 0 <==> a.pinned == b.pinned && a.lastUpdated == b.lastUpdated
  {
    if a.pinned && !b.pinned then -1
    else if !a.pinned && b.pinned then 1
    else b.lastUpdated - a.lastUpdated
  }

  /** Any two sessions can be ordered one way or the other. */
  lemma PrecedesTotal(a: ChatSession, b: ChatSession)
    ensures Precedes(a, b) || Precedes(b, a)
  {
  }

  lemma PrecedesTransitive(a: ChatSession, b: ChatSession, c: ChatSession)
    requires Precedes(a, b) && Precedes(b, c)
    ensures Precedes(a, c)
  {
  }

  predicate Sorted(s: seq<ChatSession>) {
    forall i, j :: 0 <= i < j < |s| ==> Precedes(s[i], s[j])
  }

  /** In a sorted list every pinned session comes before every unpinned one,
      and each group runs from the most to the least recently updated. */
  lemma SortedGroups(s: seq<ChatSession>, i: nat, j: nat)
    requires Sorted(s) && i < j < |s|
    ensures s[j].pinned ==> s[i].pinned
    ensures s[i].pinned == s[j].pinned ==> s[i].lastUpdated >= s[j].lastUpdated
  {
  }

  /** `updated.sort(comparator)`, as an insertion sort: the array ends up
      sorted by the comparator and holds the same sessions. */
  method SortSessions(a: array<ChatSession>)
    modifies a
    ensures Sorted(a[..])
    ensures multiset(a[..]) == multiset(old(a[..]))
  {
    for i := 0 to a.Length
      invariant Sorted(a[..i])
      invariant multiset(a[..]) == multiset(old(a[..]))
    {
      InsertLast(a, i);
    }
  }

  /** Moves `a[i]` down into the sorted run `a[..i]`. */
  method InsertLast(a: array<ChatSession>, i: nat)
    requires i < a.Length && Sorted(a[..i])
    modifies a
    ensures Sorted(a[..i + 1])
    ensures multiset(a[..]) == multiset(old(a[..]))
  {
    var j := i;
    StartInserting(a[..], i, i);
    while j > 0 && !Precedes(a[j - 1], a[j])
      invariant 0 <= j <= i < a.Length
      invariant multiset(a[..]) == multiset(old(a[..]))
      invariant Inserting(a[..], i, j)
    {
      InsertStep(a[..], i, j);
      a[j - 1], a[j] := a[j], a[j - 1];
      j := j - 1;
    }
    InsertDone(a[..], i, j);
  }

  /** `s[..i + 1]` is sorted but for `s[j]`, which is still on its way down
      and belongs before everything it has passed. */
  ghost predicate Inserting(s: seq<ChatSession>, i: nat, j: nat) {
    j <= i < |s|
    && (forall k, l :: 0 <= k < l <= i && k != j && l != j ==> Precedes(s[k], s[l]))
    && (forall l :: j < l <= i ==> Precedes(s[j], s[l]))
  }

  lemma StartInserting(s: seq<ChatSession>, i: nat, j: nat)
    requires i < |s| && j == i && Sorted(s[..i])
    ensures Inserting(s, i, j)
  {
    assert forall k :: 0 <= k < i ==> s[..i][k] == s[k];
  }

  /** Swapping `s[j]` with a neighbour that should follow it keeps the insertion going one place down. */
  lemma InsertStep(s: seq<ChatSession>, i: nat, j: nat)
    requires Inserting(s, i, j) && 0 < j && !Precedes(s[j - 1], s[j])
    ensures Inserting(s[j - 1 := s[j]][j := s[j - 1]], i, j - 1)
  {
    var t := s[j - 1 := s[j]][j := s[j - 1]];
    PrecedesTotal(s[j - 1], s[j]);
    forall l | j - 1 < l <= i ensures Precedes(t[j - 1], t[l]) {
      if l > j {
        assert Precedes(s[j], s[l]);
      }
    }
  }

  /** Once `s[j]` has reached a neighbour that may stand before it, the run is sorted. */
  lemma InsertDone(s: seq<ChatSession>, i: nat, j: nat)
    requires Inserting(s, i, j) && (j == 0 || Precedes(s[j - 1], s[j]))
    ensures Sorted(s[..i + 1])
  {
    forall k, l | 0 <= k < l <= i ensures Precedes(s[k], s[l]) {
      if l == j && k < j - 1 {
        PrecedesTransitive(s[k], s[j - 1], s[j]);
      } else if k < j && l > j {
        PrecedesTransitive(s[k], s[j], s[l]);
      }
    }
  }
}
