/**
 * The slide collection: an ordered list of captured slides, each a screenshot
 * with its speaker note. The functions here are what the panel's handlers do
 * to that list; the class in module SidePanel applies them to its state.
 */
module Slides {
  import opened Common

  /** One captured slide. `id` is the capture time in milliseconds; nothing makes it unique. */
  datatype Slide = Slide(id: int, image: string, note: string)

  /** Ids strictly increase along the list, as they do when the clock only moves forward. */
  predicate IdsIncreasing(s: seq<Slide>) {
    forall i, j :: 0 <= i < j < |s| ==> s[i].id < s[j].id
  }

  /** No two slides share an id. */
  predicate UniqueIds(s: seq<Slide>) {
    forall i, j :: 0 <= i < j < |s| ==> s[i].id != s[j].id
  }

  /** Number of slides whose id is `k`. */
  function CountId(s: seq<Slide>, k: int): (n: nat)
    ensures n <= |s|
  {
    if s == [] then 0 else (if s[0].id == k then 1 else 0) + CountId(s[1..], k)
  }

  /** No slide has id `k` exactly when `find` finds nothing. */
  lemma {:induction false} CountIdZeroIff(s: seq<Slide>, k: int)
    ensures CountId(s, k) == 0 <==> FirstIndexOf(s, k).None?
  {
    if s != [] && s[0].id != k {
      CountIdZeroIff(s[1..], k);
    }
  }

  /** The index `slides.find(item => item.id === k)` stops at: the first slide with id `k`. */
  function FirstIndexOf(s: seq<Slide>, k: int): (r: Option<nat>)
    ensures r.Some? ==> r.value < |s| && s[r.value].id == k
                        && forall j :: 0 <= j < r.value ==> s[j].id != k
    ensures r.None? <==> forall j :: 0 <= j < |s| ==> s[j].id != k
  {
    if s == [] then None
    else if s[0].id == k then Some(0)
    else
      match FirstIndexOf(s[1..], k)
      case None => None
      case Some(i) => Some(i + 1)
  }

  /**
   * The list after the note editor of slide `k` reports `text`: the first slide
   * with id `k` gets the new note and nothing else changes.
   */
  function WithNote(s: seq<Slide>, k: int, text: string): (r: seq<Slide>)
    ensures |r| == |s|
    ensures forall j :: 0 <= j < |s| ==> r[j].id == s[j].id && r[j].image == s[j].image
    ensures FirstIndexOf(s, k).None? ==> r == s
    ensures FirstIndexOf(s, k).Some? ==>
              var i := FirstIndexOf(s, k).value;
              r[i].note == text && forall j :: 0 <= j < |s| && j != i ==> r[j] == s[j]
  {
    match FirstIndexOf(s, k)
    case None => s
    case Some(i) => s[i := s[i].(note := text)]
  }

  /** Editing the same slide twice leaves only the last text: the edit overwrites. */
  lemma WithNoteLastWins(s: seq<Slide>, k: int, a: string, b: string)
    ensures WithNote(WithNote(s, k, a), k, b) == WithNote(s, k, b)
  {
    var r := WithNote(s, k, a);
    if FirstIndexOf(s, k).Some? {
      var i := FirstIndexOf(s, k).value;
      SameIdsSameFirstIndex(s, r, k);
      assert FirstIndexOf(r, k) == Some(i);
    }
  }

  /** Two lists with the same ids, position by position, find the same first slide for any id. */
  lemma {:induction false} SameIdsSameFirstIndex(s: seq<Slide>, t: seq<Slide>, k: int)
    requires |s| == |t|
    requires forall j :: 0 <= j < |s| ==> s[j].id == t[j].id
    ensures FirstIndexOf(s, k) == FirstIndexOf(t, k)
  {
    if s != [] && s[0].id != k {
      SameIdsSameFirstIndex(s[1..], t[1..], k);
    }
  }

  /** `slides.filter(s => s.id !== k)`: every slide whose id is not `k`, in list order. */
  function Without(s: seq<Slide>, k: int): (r: seq<Slide>)
    ensures forall x :: x in r <==> x in s && x.id != k
  {
    if s == [] then []
    else (if s[0].id != k then [s[0]] else []) + Without(s[1..], k)
  }

  /** Filtering distributes over concatenation, so relative order is kept. */
  lemma {:induction false} WithoutConcat(a: seq<Slide>, b: seq<Slide>, k: int)
    ensures Without(a + b, k) == Without(a, k) + Without(b, k)
  {
    if a == [] {
      assert a + b == b;
    } else {
      assert (a + b)[0] == a[0];
      assert (a + b)[1..] == a[1..] + b;
      WithoutConcat(a[1..], b, k);
    }
  }

  /** Removal drops exactly the slides with id `k`, no more and no fewer. */
  lemma {:induction false} WithoutLength(s: seq<Slide>, k: int)
    ensures |Without(s, k)| == |s| - CountId(s, k)
  {
    if s != [] {
      WithoutLength(s[1..], k);
    }
  }

  /** Removing an id that no slide has leaves the list as it was. */
  lemma {:induction false} WithoutAbsent(s: seq<Slide>, k: int)
    requires FirstIndexOf(s, k).None?
    ensures Without(s, k) == s
  {
    if s != [] {
      assert s == [s[0]] + s[1..];
      WithoutAbsent(s[1..], k);
    }
  }

  /** Removing the same id twice is the same as removing it once. */
  lemma {:induction false} WithoutIdempotent(s: seq<Slide>, k: int)
    ensures Without(Without(s, k), k) == Without(s, k)
  {
    if s != [] {
      var rest := Without(s[1..], k);
      WithoutIdempotent(s[1..], k);
      if s[0].id != k {
        assert ([s[0]] + rest)[1..] == rest;
      } else {
        assert Without(s, k) == rest;
      }
    }
  }

  /** Dropping the first slide keeps ids increasing. */
  lemma IncreasingTail(s: seq<Slide>)
    requires s != [] && IdsIncreasing(s)
    ensures IdsIncreasing(s[1..])
  {
    forall i, j | 0 <= i < j < |s[1..]| ensures s[1..][i].id < s[1..][j].id {
      assert s[1..][i] == s[i + 1] && s[1..][j] == s[j + 1];
    }
  }

  /** Putting a slide older than all others in front keeps ids increasing. */
  lemma IncreasingCons(x: Slide, rest: seq<Slide>)
    requires IdsIncreasing(rest)
    requires forall j :: 0 <= j < |rest| ==> x.id < rest[j].id
    ensures IdsIncreasing([x] + rest)
  {
    var r := [x] + rest;
    forall i, j | 0 <= i < j < |r| ensures r[i].id < r[j].id {
      assert r[j] == rest[j - 1];
      if i > 0 {
        assert r[i] == rest[i - 1];
      }
    }
  }

  /** Removal keeps ids increasing: what is left is a sub-list in the original order. */
  lemma {:induction false} WithoutKeepsIncreasing(s: seq<Slide>, k: int)
    requires IdsIncreasing(s)
    ensures IdsIncreasing(Without(s, k))
  {
    if s != [] {
      var tail := s[1..];
      var rest := Without(tail, k);
      IncreasingTail(s);
      WithoutKeepsIncreasing(tail, k);
      if s[0].id != k {
        forall j | 0 <= j < |rest| ensures s[0].id < rest[j].id {
          assert rest[j] in tail;
          var m :| 0 <= m < |tail| && tail[m] == rest[j];
          assert s[m + 1] == rest[j];
        }
        IncreasingCons(s[0], rest);
        assert Without(s, k) == [s[0]] + rest;
      } else {
        assert Without(s, k) == rest;
      }
    }
  }

  /** Increasing ids never repeat. */
  lemma IncreasingIsUnique(s: seq<Slide>)
    requires IdsIncreasing(s)
    ensures UniqueIds(s)
  {
  }

  /** With unique ids, at most one slide carries a given id. */
  lemma {:induction false} UniqueCountAtMostOne(s: seq<Slide>, k: int)
    requires UniqueIds(s)
    ensures CountId(s, k) <= 1
    ensures CountId(s, k) == 1 <==> FirstIndexOf(s, k).Some?
  {
    if s != [] {
      forall i, j | 0 <= i < j < |s[1..]| ensures s[1..][i].id != s[1..][j].id {
        assert s[1..][i] == s[i + 1] && s[1..][j] == s[j + 1];
      }
      UniqueCountAtMostOne(s[1..], k);
      if s[0].id == k {
        assert FirstIndexOf(s[1..], k).None? by {
          forall j | 0 <= j < |s[1..]| ensures s[1..][j].id != k {
            assert s[1..][j] == s[j + 1];
          }
        }
      }
    }
  }

  /** With unique ids, removing a present slide shortens the list by exactly one. */
  lemma RemovePresentUnique(s: seq<Slide>, k: int)
    requires UniqueIds(s)
    requires FirstIndexOf(s, k).Some?
    ensures |Without(s, k)| == |s| - 1
  {
    UniqueCountAtMostOne(s, k);
    WithoutLength(s, k);
  }

  /** A slide stamped later than every slide present keeps the ids increasing when appended. */
  lemma AppendLaterKeepsIncreasing(s: seq<Slide>, x: Slide)
    requires IdsIncreasing(s)
    requires forall j :: 0 <= j < |s| ==> s[j].id < x.id
    ensures IdsIncreasing(s + [x])
  {
  }
}
