/** Properties of the page's transitions that relate several calls: round
    trips, idempotence, what id uniqueness does and does not survive, and the
    write-through invariant over whole event sequences. */
module PageProperties {
  import opened Wrappers
  import opened VideoIdeas
  import opened IdeaList
  import opened Page

  // ----- add -----

  /** Add keeps ids distinct exactly when they were distinct and the supplied
      id is not already in the list. Nothing in the page checks this. */
  lemma AddKeepsDistinct(s: State, id: string, createdAt: string)
    ensures DistinctIds(Add(s, id, createdAt).ideas) <==> DistinctIds(s.ideas) && !HasId(s.ideas, id)
  {
  }

  /** Id uniqueness is not an invariant: on a fresh install, two adds that
      read the same clock value leave two ideas with the same id, although the
      session started with distinct ids. The millisecond clock repeats a value
      when the system clock is set back between the two adds. */
  lemma AddCanDuplicateId(id: string, c1: string, c2: string, t1: string, t2: string, t3: string)
    ensures var s := Mount(None, t1, t2, t3);
            var r := Run(s, [ClickAdd, ClickSubmit(id, c1), ClickAdd, ClickSubmit(id, c2)]);
            DistinctIds(s.ideas) && !DistinctIds(r.ideas)
  {
    var s := Mount(None, t1, t2, t3);
    var events := [ClickAdd, ClickSubmit(id, c1), ClickAdd, ClickSubmit(id, c2)];
    var a0 := Step(s, ClickAdd);
    var a1 := Step(a0, ClickSubmit(id, c1));
    var a2 := Step(a1, ClickAdd);
    var a3 := Step(a2, ClickSubmit(id, c2));
    assert Run(a3, []) == a3;
    assert Run(a2, [ClickSubmit(id, c2)]) == a3 by { assert [ClickSubmit(id, c2)][1..] == []; }
    assert Run(a1, [ClickAdd, ClickSubmit(id, c2)]) == a3 by {
      assert [ClickAdd, ClickSubmit(id, c2)][1..] == [ClickSubmit(id, c2)];
    }
    assert Run(a0, events[1..]) == a3 by {
      assert events[1..][1..] == [ClickAdd, ClickSubmit(id, c2)];
    }
    assert a3.ideas[0].id == a3.ideas[1].id;
  }

  // ----- update -----

  /** Update without a target, or with a target no idea carries, leaves the
      list as it was; the edit mode still ends and the form is still reset. */
  lemma UpdateWithoutMatch(s: State)
    requires s.editingId.None? || !HasId(s.ideas, s.editingId.value)
    ensures Update(s).ideas == s.ideas
    ensures Update(s).editingId == None && Update(s).form == DefaultForm
  {
  }

  /** Update keeps every id in place, so distinct ids stay distinct. */
  lemma UpdateKeepsDistinct(s: State)
    ensures Ids(Update(s).ideas) == Ids(s.ideas)
    ensures DistinctIds(Update(s).ideas) <==> DistinctIds(s.ideas)
  {
  }

  /** Opening an idea for editing and saving the form unchanged gives back the
      same list, provided ids are distinct (and the id is a truthy string, so
      submit dispatches to update). */
  lemma EditThenSubmitUnchanged(s: State, id: string, newId: string, now: string)
    requires DistinctIds(s.ideas) && HasId(s.ideas, id) && id != ""
    ensures Submit(Edit(s, id), newId, now).ideas == s.ideas
  {
  }

  /** With a duplicated id the same edit-and-save is not a no-op: the form is
      filled from the first match but written over every match. */
  lemma EditThenSubmitWithDuplicateIds(a: VideoIdea, b: VideoIdea, newId: string, now: string)
    requires a.id == b.id && a.id != "" && FormOf(a) != FormOf(b)
    ensures var s := Persist(Initial(None).(ideas := [a, b]));
            Submit(Edit(s, a.id), newId, now).ideas == [a, Overwrite(b, FormOf(a))] != s.ideas
  {
  }

  /** Retitling an idea through the form: open it for editing, type a new
      title, save. The idea gets the title and keeps every other field; every
      other idea is untouched. */
  lemma RenameThroughForm(s: State, k: nat, title: string, newId: string, now: string)
    requires DistinctIds(s.ideas) && k < |s.ideas| && s.ideas[k].id != ""
    ensures var r := Submit(Input(Edit(s, s.ideas[k].id), SetTitle(title)), newId, now);
            |r.ideas| == |s.ideas|
            && r.ideas[k] == s.ideas[k].(title := title)
            && forall i :: 0 <= i < |s.ideas| && i != k ==> r.ideas[i] == s.ideas[i]
  {
  }

  // ----- delete -----

  /** Deleting the same id twice is deleting it once. */
  lemma DeleteIdempotent(s: State, id: string)
    ensures Delete(Delete(s, id), id) == Delete(s, id)
  {
  }

  /** Delete keeps the survivors in their order: deleting from a list split
      in two is deleting from each part. */
  lemma DeleteKeepsOrder(s: State, front: seq<VideoIdea>, back: seq<VideoIdea>, id: string)
    requires s.ideas == front + back
    ensures Delete(s, id).ideas == Without(front, id) + Without(back, id)
  {
    WithoutAppend(front, back, id);
  }

  /** With distinct ids, delete removes exactly one idea when the id is
      present and none when it is absent, and the rest stay distinct. */
  lemma DeleteRemovesAtMostOne(s: State, id: string)
    requires DistinctIds(s.ideas)
    ensures |Delete(s, id).ideas| == |s.ideas| - (if HasId(s.ideas, id) then 1 else 0)
    ensures DistinctIds(Delete(s, id).ideas)
  {
    CountDistinct(s.ideas, id);
    WithoutKeepsDistinct(s.ideas, id);
  }

  // ----- modes -----

  /** Cancel is idempotent. */
  lemma CancelIdempotent(s: State)
    ensures Cancel(Cancel(s)) == Cancel(s)
  {
  }

  /** The two modes are not exclusive: clicking add during an edit leaves the
      edit in progress, and saving that edit leaves the add form open. */
  lemma AddAndEditCoexist(s: State, id: string, newId: string, now: string)
    requires HasId(s.ideas, id) && id != ""
    ensures StartAdd(Edit(s, id)).isAdding && StartAdd(Edit(s, id)).editingId == Some(id)
    ensures Submit(StartAdd(Edit(s, id)), newId, now).isAdding
    ensures FormShown(Submit(StartAdd(Edit(s, id)), newId, now))
  {
  }

  // ----- storage -----

  /** Every event keeps the stored copy equal to the list, so a whole session
      started by a mount ends with storage equal to the list. */
  lemma {:induction false} RunKeepsSynced(s: State, events: seq<Event>)
    requires Synced(s)
    ensures Synced(Run(s, events))
    decreases |events|
  {
    if |events| > 0 {
      RunKeepsSynced(Step(s, events[0]), events[1..]);
    }
  }

  /** Reloading the page from a synced state restores the list exactly. */
  lemma ReloadRestores(s: State, t1: string, t2: string, t3: string)
    requires Synced(s)
    ensures Mount(s.stored, t1, t2, t3).ideas == s.ideas
  {
  }

  /** A session's end state, reloaded, is the session's list. */
  lemma SessionSurvivesReload(slot: Option<seq<VideoIdea>>, events: seq<Event>,
                              t1: string, t2: string, t3: string, u1: string, u2: string, u3: string)
    ensures var s := Run(Mount(slot, t1, t2, t3), events);
            Mount(s.stored, u1, u2, u3).ideas == s.ideas
  {
    RunKeepsSynced(Mount(slot, t1, t2, t3), events);
  }

  // ----- ids over sessions -----

  /** A submit that dispatches to add: the form is shown and not in edit mode. */
  predicate SubmitAdds(s: State, e: Event)
  {
    e.ClickSubmit? && FormShown(s) && !InEditMode(s.editingId)
  }

  /** Every submit that dispatches to add, along the run, supplies an id not
      yet in the list at that moment. */
  predicate FreshSubmits(s: State, events: seq<Event>)
    decreases |events|
  {
    if |events| == 0 then true
    else
      var e := events[0];
      (SubmitAdds(s, e) ==> !HasId(s.ideas, e.newId))
      && FreshSubmits(Step(s, e), events[1..])
  }

  /** One event keeps ids distinct, given a fresh id on an add. */
  lemma StepKeepsDistinct(s: State, e: Event)
    requires DistinctIds(s.ideas)
    requires SubmitAdds(s, e) ==> !HasId(s.ideas, e.newId)
    ensures DistinctIds(Step(s, e).ideas)
  {
    if FormShown(s) || !FromForm(e) {
      match e
      case ClickDelete(id) => DeleteRemovesAtMostOne(s, id);
      case ClickSubmit(id, now) =>
        if InEditMode(s.editingId) {
          UpdateKeepsDistinct(s);
        } else {
          AddKeepsDistinct(s, id, now);
        }
      case _ =>
    }
  }

  /** A session that starts with distinct ids and only ever adds with fresh
      ids ends with distinct ids. */
  lemma {:induction false} RunKeepsDistinct(s: State, events: seq<Event>)
    requires DistinctIds(s.ideas) && FreshSubmits(s, events)
    ensures DistinctIds(Run(s, events).ideas)
    decreases |events|
  {
    if |events| > 0 {
      StepKeepsDistinct(s, events[0]);
      RunKeepsDistinct(Step(s, events[0]), events[1..]);
    }
  }

  /** A fresh install that only ever adds with fresh ids keeps its ids distinct. */
  lemma FreshInstallKeepsDistinct(events: seq<Event>, t1: string, t2: string, t3: string)
    requires FreshSubmits(Mount(None, t1, t2, t3), events)
    ensures DistinctIds(Run(Mount(None, t1, t2, t3), events).ideas)
  {
    RunKeepsDistinct(Mount(None, t1, t2, t3), events);
  }

  /** The clicks of a run of adds: for each (id, time) the add button, then
      the form's save button. */
  function AddClicks(adds: seq<(string, string)>): (r: seq<Event>)
    ensures |r| == 2 * |adds|
  {
    if |adds| == 0 then []
    else [ClickAdd, ClickSubmit(adds[0].0, adds[0].1)] + AddClicks(adds[1..])
  }

  /** Each add-then-save outside edit mode grows the list by exactly one: the
      old list stays at the end, the last add comes first, and the add form
      is closed afterwards. */
  lemma {:induction false} AddsGrowByOne(s: State, adds: seq<(string, string)>)
    requires !InEditMode(s.editingId)
    ensures |Run(s, AddClicks(adds)).ideas| == |s.ideas| + |adds|
    ensures Run(s, AddClicks(adds)).ideas[|adds|..] == s.ideas
    ensures |adds| > 0 ==> Run(s, AddClicks(adds)).ideas[0].id == adds[|adds| - 1].0
    ensures |adds| > 0 ==> !Run(s, AddClicks(adds)).isAdding
    ensures Run(s, AddClicks(adds)).editingId == s.editingId
    decreases |adds|
  {
    if |adds| > 0 {
      var events := AddClicks(adds);
      var rest := adds[1..];
      assert events[0] == ClickAdd;
      assert events[1..][0] == ClickSubmit(adds[0].0, adds[0].1);
      assert events[1..][1..] == AddClicks(rest);
      var s2 := Step(Step(s, ClickAdd), ClickSubmit(adds[0].0, adds[0].1));
      assert s2.ideas[1..] == s.ideas && s2.ideas[0].id == adds[0].0;
      assert Run(s, events) == Run(s2, AddClicks(rest));
      AddsGrowByOne(s2, rest);
      var r := Run(s2, AddClicks(rest));
      assert r.ideas[|rest|..] == s2.ideas;
      assert r.ideas[|adds|..] == r.ideas[|rest|..][1..];
      if |rest| > 0 {
        assert adds[|adds| - 1] == rest[|rest| - 1];
      }
    }
  }

}
