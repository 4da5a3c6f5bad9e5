/** The state `App.tsx` owns: the two lists, the handlers the components call,
    and the latch that keeps the save effects quiet until the first load has
    finished. Each state change is followed by the save effect it triggers;
    effects run one after another. */
module App {
  import opened Types
  import opened Seqs
  import opened Keys
  import opened EntryStore

  function EntryId(e: EmotionEntry): string { e.id }
  function GoalKey(g: Goal): string { g.id }

  /** `filter(x => x.id !== id)`. */
  function Without<T(!new)>(xs: seq<T>, id: string, key: T -> string): (r: seq<T>)
    ensures |r| <= |xs|
    ensures forall x :: x in r <==> x in xs && key(x) != id
  {
    if xs == [] then []
    else
      var init := xs[..|xs| - 1];
      var last := xs[|xs| - 1];
      assert xs == init + [last];
      Without(init, id, key) + (if key(last) != id then [last] else [])
  }

  /** The filter keeps the survivors in their order: it distributes over
      concatenation, and leaves a list without the id as it is. */
  lemma {:induction false} WithoutAppend<T(!new)>(xs: seq<T>, ys: seq<T>, id: string, key: T -> string)
    ensures Without(xs + ys, id, key) == Without(xs, id, key) + Without(ys, id, key)
    decreases |ys|
  {
    if ys != [] {
      var init := ys[..|ys| - 1];
      assert (xs + ys)[..|xs + ys| - 1] == xs + init;
      WithoutAppend(xs, init, id, key);
    } else {
      assert xs + ys == xs;
    }
  }

  lemma {:induction false} WithoutAbsent<T(!new)>(xs: seq<T>, id: string, key: T -> string)
    requires forall i :: 0 <= i < |xs| ==> key(xs[i]) != id
    ensures Without(xs, id, key) == xs
  {
    if xs != [] {
      var init, last := xs[..|xs| - 1], xs[|xs| - 1];
      assert forall i :: 0 <= i < |init| ==> init[i] == xs[i];
      WithoutAbsent(init, id, key);
      assert key(last) != id;
      calc {
        Without(xs, id, key);
        Without(init, id, key) + [last];
        init + [last];
        { SplitLast(xs); }
        xs;
      }
    }
  }

  /** `goals.map(g => g.id === updated.id ? updated : g)`. */
  function ReplaceGoal(gs: seq<Goal>, updated: Goal): (r: seq<Goal>)
    ensures |r| == |gs|
    ensures forall i :: 0 <= i < |gs| ==> r[i] == if gs[i].id == updated.id then updated else gs[i]
  {
    seq(|gs|, i requires 0 <= i < |gs| => if gs[i].id == updated.id then updated else gs[i])
  }

  /** An update keeps every id in place, is idempotent, and is a no-op for an
      id the list does not hold. */
  lemma ReplaceGoalSpec(gs: seq<Goal>, updated: Goal)
    ensures forall i :: 0 <= i < |gs| ==> ReplaceGoal(gs, updated)[i].id == gs[i].id
    ensures ReplaceGoal(ReplaceGoal(gs, updated), updated) == ReplaceGoal(gs, updated)
    ensures (forall i :: 0 <= i < |gs| ==> gs[i].id != updated.id) ==> ReplaceGoal(gs, updated) == gs
  {
  }

  class Dashboard {
    var emotions: seq<EmotionEntry>
    var goals: seq<Goal>
    var isInitialLoad: bool
    const store: Storage

    constructor(store: Storage)
      ensures emotions == [] && goals == [] && isInitialLoad && this.store == store
    {
      emotions, goals, isInitialLoad := [], [], true;
      this.store := store;
    }

    /** The emotion save effect: nothing while the latch is set. */
    method PersistEmotions(now: Millis)
      modifies store
      ensures store.goals == old(store.goals) && store.faults == old(store.faults)
      ensures if isInitialLoad then store.emotions == old(store.emotions) && store.local == old(store.local)
              else (store.emotions, store.local) == SaveEmotionsEffect(old(store.emotions), old(store.local), emotions, store.faults, now)
    {
      if !isInitialLoad {
        store.SaveEmotions(emotions, now);
      }
    }

    /** The goal save effect. */
    method PersistGoals(now: Millis)
      modifies store
      ensures store.emotions == old(store.emotions) && store.faults == old(store.faults)
      ensures if isInitialLoad then store.goals == old(store.goals) && store.local == old(store.local)
              else (store.goals, store.local) == SaveGoalsEffect(old(store.goals), old(store.local), goals, store.faults, now)
    {
      if !isInitialLoad {
        store.SaveGoals(goals, now);
      }
    }

    /** The mount effect: load both lists, lift the latch, and then the save
        effects write the loaded lists straight back. */
    method LoadData(now: Millis)
      modifies this, store
      ensures emotions == LoadedEmotions(old(store.faults), old(store.emotions), old(store.local), now)
      ensures goals == LoadedGoals(old(store.faults), old(store.goals), old(store.local), now)
      ensures !isInitialLoad
      ensures var (m, local) := SaveEmotionsEffect(old(store.emotions), old(store.local), emotions, store.faults, now);
        (store.goals, store.local) == SaveGoalsEffect(old(store.goals), local, goals, store.faults, now)
        && store.emotions == m
    {
      emotions := LoadedEmotions(store.faults, store.emotions, store.local, now);
      goals := LoadedGoals(store.faults, store.goals, store.local, now);
      isInitialLoad := false;
      PersistEmotions(now);
      PersistGoals(now);
    }

    /** `handleAddEmotion`: one entry more, at the end. */
    method AddEmotion(e: EmotionEntry, now: Millis)
      modifies this, store
      ensures emotions == old(emotions) + [e] && goals == old(goals) && isInitialLoad == old(isInitialLoad)
      ensures store.goals == old(store.goals)
      ensures if isInitialLoad then store.emotions == old(store.emotions) && store.local == old(store.local)
              else (store.emotions, store.local) == SaveEmotionsEffect(old(store.emotions), old(store.local), emotions, store.faults, now)
    {
      emotions := emotions + [e];
      PersistEmotions(now);
    }

    /** `handleDeleteEmotion`: when confirmed, every entry with that id goes. */
    method DeleteEmotion(id: string, confirmed: bool, now: Millis)
      modifies this, store
      ensures emotions == (if confirmed then Without(old(emotions), id, EntryId) else old(emotions))
      ensures goals == old(goals) && isInitialLoad == old(isInitialLoad) && store.goals == old(store.goals)
      ensures if isInitialLoad || !confirmed then store.emotions == old(store.emotions) && store.local == old(store.local)
              else (store.emotions, store.local) == SaveEmotionsEffect(old(store.emotions), old(store.local), emotions, store.faults, now)
    {
      if confirmed {
        emotions := Without(emotions, id, EntryId);
        PersistEmotions(now);
      }
    }

    /** `handleAddGoal`. */
    method AddGoal(g: Goal, now: Millis)
      modifies this, store
      ensures goals == old(goals) + [g] && emotions == old(emotions) && isInitialLoad == old(isInitialLoad)
      ensures store.emotions == old(store.emotions)
      ensures if isInitialLoad then store.goals == old(store.goals) && store.local == old(store.local)
              else (store.goals, store.local) == SaveGoalsEffect(old(store.goals), old(store.local), goals, store.faults, now)
    {
      goals := goals + [g];
      PersistGoals(now);
    }

    /** `handleUpdateGoal`: the list is rebuilt, so the save always follows. */
    method UpdateGoal(g: Goal, now: Millis)
      modifies this, store
      ensures goals == ReplaceGoal(old(goals), g) && emotions == old(emotions) && isInitialLoad == old(isInitialLoad)
      ensures store.emotions == old(store.emotions)
      ensures if isInitialLoad then store.goals == old(store.goals) && store.local == old(store.local)
              else (store.goals, store.local) == SaveGoalsEffect(old(store.goals), old(store.local), goals, store.faults, now)
    {
      goals := ReplaceGoal(goals, g);
      PersistGoals(now);
    }

    /** `handleDeleteGoal`. */
    method DeleteGoal(id: string, confirmed: bool, now: Millis)
      modifies this, store
      ensures goals == (if confirmed then Without(old(goals), id, GoalKey) else old(goals))
      ensures emotions == old(emotions) && isInitialLoad == old(isInitialLoad) && store.emotions == old(store.emotions)
      ensures if isInitialLoad || !confirmed then store.goals == old(store.goals) && store.local == old(store.local)
              else (store.goals, store.local) == SaveGoalsEffect(old(store.goals), old(store.local), goals, store.faults, now)
    {
      if confirmed {
        goals := Without(goals, id, GoalKey);
        PersistGoals(now);
      }
    }
  }

  /** A store holding a single record lists just that record. */
  lemma SingleListing(k: string, v: StoredEmotion)
    ensures Listing(map[k := v]) == [v]
  {
    assert Least({k}) == k;
    assert {k} - {k} == {};
    assert KeyOrder({k}) == [k];
  }

  /** The save effect cannot empty the store: after the only entry is deleted
      the empty list is not written, so the next load brings the entry back. */
  lemma DeletingLastEntryReappears(e: EmotionEntry, m: map<string, StoredEmotion>, local: map<string, Slot>,
                                   f: Faults, t1: Millis, t2: Millis, later: Millis)
    requires !f.openFails && !f.clearFails && f.putFailsAt.None? && !f.readFails
    ensures Without([e], e.id, EntryId) == []
    ensures var (m1, l1) := SaveEmotionsEffect(m, local, [e], f, t1);
      var (m2, l2) := SaveEmotionsEffect(m1, l1, Without([e], e.id, EntryId), f, t2);
      m2 == m1 && LoadedEmotions(f, m2, l2, later) == [e]
  {
    assert Without([e], e.id, EntryId) == [] by {
      assert [e][..0] == [];
    }
    var data := EncodeEmotions([e]);
    assert data[..0] == [];
    assert Upsert(map[], data, EmotionId) == map[e.id := EncodeEmotion(e)];
    SingleListing(e.id, EncodeEmotion(e));
    assert EncodeEmotions([]) == [];
  }
}
