/** The three list operations the page's handlers use on the ordered idea list:
    `find` by id, `map` that overwrites the ideas whose id matches, and
    `filter` that drops the ideas whose id matches. Ids are NOT assumed
    distinct; facts that need distinct ids say so in their requires. */
module IdeaList {
  import opened Wrappers
  import opened VideoIdeas

  /** Some idea in the list has this id. */
  predicate HasId(ideas: seq<VideoIdea>, id: string)
  {
    exists i :: 0 <= i < |ideas| && ideas[i].id == id
  }

  /** No two positions of the list carry the same id. */
  predicate DistinctIds(ideas: seq<VideoIdea>)
  {
    forall i, j :: 0 <= i < j < |ideas| ==> ideas[i].id != ideas[j].id
  }

  /** The number of ideas carrying this id. */
  function Count(ideas: seq<VideoIdea>, id: string): nat
  {
    if |ideas| == 0 then 0
    else (if ideas[0].id == id then 1 else 0) + Count(ideas[1..], id)
  }

  /** Position of the first idea with this id (the element `Array.find` returns). */
  function FindIndex(ideas: seq<VideoIdea>, id: string): (r: Option<nat>)
    ensures r.Some? ==> r.value < |ideas| && ideas[r.value].id == id
    ensures r.Some? ==> forall j :: 0 <= j < r.value ==> ideas[j].id != id
    ensures r.None? <==> !HasId(ideas, id)
  {
    if |ideas| == 0 then None
    else if ideas[0].id == id then Some(0)
    else
      match FindIndex(ideas[1..], id)
      case None => None
      case Some(k) => Some(k + 1)
  }

  /** `ideas.find(i => i.id === id)`: the first idea with this id, if any. */
  function Find(ideas: seq<VideoIdea>, id: string): (r: Option<VideoIdea>)
    ensures r.None? <==> !HasId(ideas, id)
    ensures r.Some? ==> r.value in ideas && r.value.id == id
    ensures r.Some? ==> exists k :: 0 <= k < |ideas| && ideas[k] == r.value
                                   && forall j :: 0 <= j < k ==> ideas[j].id != id
  {
    match FindIndex(ideas, id)
    case None => None
    case Some(k) => Some(ideas[k])
  }

  /** `ideas.map(idea => idea.id === target ? { ...idea, ...form } : idea)`.
      A `None` target is JavaScript's `null`, which no string id equals. */
  function UpdateMatching(ideas: seq<VideoIdea>, target: Option<string>, form: FormData): (r: seq<VideoIdea>)
    ensures |r| == |ideas|
    ensures forall i :: 0 <= i < |ideas| ==> r[i].id == ideas[i].id && r[i].createdAt == ideas[i].createdAt
    ensures forall i :: 0 <= i < |ideas| && Some(ideas[i].id) == target ==> FormOf(r[i]) == form
    ensures forall i :: 0 <= i < |ideas| && Some(ideas[i].id) != target ==> r[i] == ideas[i]
  {
    if |ideas| == 0 then []
    else
      var head := if Some(ideas[0].id) == target then Overwrite(ideas[0], form) else ideas[0];
      [head] + UpdateMatching(ideas[1..], target, form)
  }

  /** `ideas.filter(idea => idea.id !== id)`. */
  function Without(ideas: seq<VideoIdea>, id: string): (r: seq<VideoIdea>)
    ensures forall x :: x in r <==> x in ideas && x.id != id
    ensures |r| == |ideas| - Count(ideas, id)
    ensures !HasId(ideas, id) ==> r == ideas
  {
    if |ideas| == 0 then []
    else if ideas[0].id == id then Without(ideas[1..], id)
    else
      assert HasId(ideas[1..], id) ==> HasId(ideas, id) by {
        if HasId(ideas[1..], id) {
          var i :| 0 <= i < |ideas[1..]| && ideas[1..][i].id == id;
          assert ideas[i + 1].id == id;
        }
      }
      [ideas[0]] + Without(ideas[1..], id)
  }

  /** The ids of the list, in order. */
  function Ids(ideas: seq<VideoIdea>): (r: seq<string>)
    ensures |r| == |ideas|
    ensures forall i :: 0 <= i < |ideas| ==> r[i] == ideas[i].id
  {
    if |ideas| == 0 then [] else [ideas[0].id] + Ids(ideas[1..])
  }

  // ----- filter: order, idempotence, count -----

  /** Filtering distributes over concatenation: the survivors of a list are the
      survivors of its front followed by the survivors of its back, so the
      relative order of the kept ideas is the original order. */
  lemma {:induction false} WithoutAppend(a: seq<VideoIdea>, b: seq<VideoIdea>, id: string)
    ensures Without(a + b, id) == Without(a, id) + Without(b, id)
    decreases |a|
  {
    if |a| == 0 {
      assert a + b == b;
    } else {
      assert (a + b)[1..] == a[1..] + b;
      WithoutAppend(a[1..], b, id);
    }
  }

  /** Filtering twice by the same id is filtering once. */
  lemma {:induction false} WithoutIdempotent(ideas: seq<VideoIdea>, id: string)
    ensures Without(Without(ideas, id), id) == Without(ideas, id)
  {
  }

  /** When ids are distinct, a delete removes at most one idea, and exactly one
      when the id is present. */
  lemma {:induction false} CountDistinct(ideas: seq<VideoIdea>, id: string)
    requires DistinctIds(ideas)
    ensures Count(ideas, id) == if HasId(ideas, id) then 1 else 0
  {
    if |ideas| > 0 {
      var tail := ideas[1..];
      assert DistinctIds(tail) by {
        forall i, j | 0 <= i < j < |tail| ensures tail[i].id != tail[j].id {
          assert tail[i] == ideas[i + 1] && tail[j] == ideas[j + 1];
        }
      }
      CountDistinct(tail, id);
      if ideas[0].id == id {
        forall k | 0 <= k < |tail|
          ensures tail[k].id != id
        {
          assert tail[k] == ideas[k + 1];
        }
      } else {
        assert HasId(tail, id) <==> HasId(ideas, id) by {
          if HasId(tail, id) {
            var k :| 0 <= k < |tail| && tail[k].id == id;
            assert ideas[k + 1].id == id;
          }
          if HasId(ideas, id) {
            var k :| 0 <= k < |ideas| && ideas[k].id == id;
            assert tail[k - 1].id == id;
          }
        }
      }
    }
  }

  // ----- distinct ids under the three list operations -----

  /** Prepending keeps the ids distinct exactly when the list's ids were
      distinct and the new id is not among them. */
  lemma PrependDistinct(v: VideoIdea, ideas: seq<VideoIdea>)
    ensures DistinctIds([v] + ideas) <==> DistinctIds(ideas) && !HasId(ideas, v.id)
  {
    var l := [v] + ideas;
    if DistinctIds(l) {
      forall i, j | 0 <= i < j < |ideas| ensures ideas[i].id != ideas[j].id {
        assert l[i + 1] == ideas[i] && l[j + 1] == ideas[j];
      }
      forall k | 0 <= k < |ideas|
        ensures ideas[k].id != v.id
      {
        assert l[k + 1] == ideas[k] && l[0] == v;
      }
    }
    if DistinctIds(ideas) && !HasId(ideas, v.id) {
      forall i, j | 0 <= i < j < |l| ensures l[i].id != l[j].id {
        if i == 0 {
          assert ideas[j - 1].id == l[j].id;
        } else {
          assert l[i] == ideas[i - 1] && l[j] == ideas[j - 1];
        }
      }
    }
  }

  /** The map of an update keeps every id where it was, so it keeps distinct
      ids distinct (and duplicated ids duplicated). */
  lemma UpdateMatchingKeepsIds(ideas: seq<VideoIdea>, target: Option<string>, form: FormData)
    ensures Ids(UpdateMatching(ideas, target, form)) == Ids(ideas)
    ensures DistinctIds(UpdateMatching(ideas, target, form)) <==> DistinctIds(ideas)
  {
  }

  /** Deleting keeps distinct ids distinct. */
  lemma {:induction false} WithoutKeepsDistinct(ideas: seq<VideoIdea>, id: string)
    requires DistinctIds(ideas)
    ensures DistinctIds(Without(ideas, id))
  {
    if |ideas| > 0 {
      var tail := ideas[1..];
      assert ideas == [ideas[0]] + tail;
      PrependDistinct(ideas[0], tail);
      WithoutKeepsDistinct(tail, id);
      if ideas[0].id != id {
        var rest := Without(tail, id);
        forall k | 0 <= k < |rest|
          ensures rest[k].id != ideas[0].id
        {
          assert rest[k] in tail;
        }
        PrependDistinct(ideas[0], rest);
      }
    }
  }

}
