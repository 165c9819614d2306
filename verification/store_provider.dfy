/**
 * Object spread on the store map: `{...store, [id]: v}` and
 * `const {[id]: _, ...rest} = store`. Both providers build every new store
 * with these two, never changing the old map.
 */
module Spread {
  /** `{...m, [k]: v}`: `k` now maps to `v`, every other key is untouched. */
  function Assign<V>(m: map<string, V>, k: string, v: V): (r: map<string, V>)
    ensures r.Keys == m.Keys + {k} && r[k] == v
    ensures forall q | q in m && q != k :: r[q] == m[q]
    ensures k !in m ==> |r| == |m| + 1
    ensures k in m ==> |r| == |m|
  {
    m[k := v]
  }

  /** `const {[k]: _, ...r} = m`: `k` is gone, every other entry is untouched. */
  function Omit<V>(m: map<string, V>, k: string): (r: map<string, V>)
    ensures r.Keys == m.Keys - {k}
    ensures forall q | q in r :: r[q] == m[q]
    ensures k !in m ==> r == m
    ensures k in m ==> |r| == |m| - 1
  {
    m - {k}
  }

  /** A second assignment to the same key overrides the first; with the same value, assigning twice is assigning once. */
  lemma AssignOverwrite<V>(m: map<string, V>, k: string, v: V, w: V)
    ensures Assign(Assign(m, k, v), k, w) == Assign(m, k, w)
  {
  }

  /** Omitting a key just assigned is the same as omitting it from the original map. */
  lemma OmitAfterAssign<V>(m: map<string, V>, k: string, v: V)
    ensures Omit(Assign(m, k, v), k) == Omit(m, k)
  {
  }
}

/**
 * The store provider: the in-memory Store plus the `isLoading` flag, and the
 * persist-then-commit rule every operation follows. Each operation sets
 * `isLoading`, builds `newStore` from the current store by spreads, hands it
 * to the remote replace-store call, assigns `store := newStore` only if that
 * call succeeds, and clears `isLoading` once the call settles.
 *
 * The remote calls, `uuidv4()` and `Date.now()` are parameters: `remoteOk`
 * is the outcome of replace-store, `slideId` the generated slide id, `now`
 * the clock reading.
 */
module StoreProvider {
  import opened Wrappers
  import opened Document
  import opened Spread

  /** The slide `createPresentation` and `createSlide` build: no elements, Roboto, default background. */
  function NewSlide(slideId: string): Slide {
    Slide(slideId, [], Roboto, DefaultBackground)
  }

  /** The presentation `createPresentation` builds: one new slide and a white solid-colour background. */
  function NewPresentation(id: string, name: string, description: string, slideId: string, now: int): (p: Presentation)
    ensures p.id == id && p.name == name && p.description == description && p.createAt == now
    ensures p.background == SolidColor("#ffffff")
    ensures |p.slides| == 1 && p.slides[0].id == slideId && p.slides[0].elements == []
    ensures p.slides[0].fontFamily == Roboto && p.slides[0].background == DefaultBackground
    ensures p.thumbnail.None? && p.thumbnailType.None?
  {
    Presentation(id, name, description, SolidColor("#ffffff"), now, [NewSlide(slideId)], None, None)
  }

  /** `newStore` of `createPresentation`: `id` maps to a fresh one-slide presentation, other keys are unchanged. */
  function CreatePresentationStore(store: Store, id: string, name: string, description: string, slideId: string, now: int): (r: Store)
    ensures r.Keys == store.Keys + {id}
    ensures r[id] == NewPresentation(id, name, description, slideId, now)
    ensures forall q | q in store && q != id :: r[q] == store[q]
  {
    Assign(store, id, NewPresentation(id, name, description, slideId, now))
  }

  /** `newStore` of `deletePresentation`: the store without key `id`; the same store when `id` is absent. */
  function DeletePresentationStore(store: Store, id: string): (r: Store)
    ensures r.Keys == store.Keys - {id}
    ensures forall q | q in r :: r[q] == store[q]
    ensures id !in store ==> r == store
  {
    Omit(store, id)
  }

  /** `newStore` of `updatePresentation`: `id` maps to `p` (added when absent), other keys are unchanged. */
  function UpdatePresentationStore(store: Store, id: string, p: Presentation): (r: Store)
    ensures r.Keys == store.Keys + {id} && r[id] == p
    ensures forall q | q in store && q != id :: r[q] == store[q]
  {
    Assign(store, id, p)
  }

  /**
   * `newStore` of `createSlide`: one new slide appended to presentation
   * `pid`, everything else unchanged. `None` when `pid` is absent: reading
   * `store[pid].slides` then throws before any remote call.
   */
  function CreateSlideStore(store: Store, pid: string, slideId: string): (r: Option<Store>)
    ensures r.Some? <==> pid in store
    ensures r.Some? ==> r.value.Keys == store.Keys
    ensures r.Some? ==> r.value[pid].slides == store[pid].slides + [NewSlide(slideId)]
    ensures r.Some? ==> r.value[pid] == store[pid].(slides := r.value[pid].slides)
    ensures r.Some? ==> forall q | q in store && q != pid :: r.value[q] == store[q]
  {
    if pid !in store then None
    else
      var p := store[pid];
      Some(Assign(store, pid, p.(slides := p.slides + [NewSlide(slideId)])))
  }

  /** Updating a presentation twice with the same value is updating it once. */
  lemma UpdatePresentationIdempotent(store: Store, id: string, p: Presentation)
    ensures UpdatePresentationStore(UpdatePresentationStore(store, id, p), id, p) == UpdatePresentationStore(store, id, p)
  {
    AssignOverwrite(store, id, p, p);
  }

  /** Deleting a presentation just created leaves the store as deleting it from the original would. */
  lemma DeleteUndoesCreate(store: Store, id: string, name: string, description: string, slideId: string, now: int)
    ensures DeletePresentationStore(CreatePresentationStore(store, id, name, description, slideId, now), id)
         == DeletePresentationStore(store, id)
    ensures id !in store ==>
      DeletePresentationStore(CreatePresentationStore(store, id, name, description, slideId, now), id) == store
  {
    OmitAfterAssign(store, id, NewPresentation(id, name, description, slideId, now));
  }

  /**
   * `k` successive `createSlide` calls on one presentation append exactly
   * the `k` new slides in call order and leave every other presentation and
   * every other field of that presentation alone.
   */
  function CreateSlides(store: Store, pid: string, slideIds: seq<string>): Option<Store>
    decreases |slideIds|
  {
    if slideIds == [] then Some(store)
    else
      match CreateSlideStore(store, pid, slideIds[0])
      case None => None
      case Some(s) => CreateSlides(s, pid, slideIds[1..])
  }

  /** The slides the calls create: one empty slide per id, in call order. */
  function NewSlides(slideIds: seq<string>): (r: seq<Slide>)
    ensures |r| == |slideIds| && forall k | 0 <= k < |r| :: r[k] == NewSlide(slideIds[k])
    decreases |slideIds|
  {
    if slideIds == [] then [] else [NewSlide(slideIds[0])] + NewSlides(slideIds[1..])
  }

  /** One `createSlide` call, then the rest. */
  lemma CreateSlidesStep(store: Store, pid: string, slideIds: seq<string>)
    requires pid in store && slideIds != []
    ensures CreateSlides(store, pid, slideIds)
         == CreateSlides(Assign(store, pid, store[pid].(slides := store[pid].slides + [NewSlide(slideIds[0])])), pid, slideIds[1..])
  {
    var p := store[pid];
    assert CreateSlideStore(store, pid, slideIds[0]) == Some(Assign(store, pid, p.(slides := p.slides + [NewSlide(slideIds[0])])));
  }

  /** Appending the first new slide, then the slides for the remaining ids, appends the slides for all ids. */
  lemma AppendFirstThenRest(slides: seq<Slide>, slideIds: seq<string>)
    requires slideIds != []
    ensures (slides + [NewSlide(slideIds[0])]) + NewSlides(slideIds[1..]) == slides + NewSlides(slideIds)
  {
    assert NewSlides(slideIds) == [NewSlide(slideIds[0])] + NewSlides(slideIds[1..]);
  }

  lemma {:induction false} CreateSlidesAppends(store: Store, pid: string, slideIds: seq<string>)
    requires pid in store
    ensures CreateSlides(store, pid, slideIds) == Some(Assign(store, pid, store[pid].(slides := store[pid].slides + NewSlides(slideIds))))
    decreases |slideIds|
  {
    var p := store[pid];
    if slideIds == [] {
      assert p.slides + NewSlides(slideIds) == p.slides;
      assert Assign(store, pid, p) == store;
    } else {
      var first := [NewSlide(slideIds[0])];
      var added := p.(slides := p.slides + first);
      CreateSlidesStep(store, pid, slideIds);
      CreateSlidesAppends(Assign(store, pid, added), pid, slideIds[1..]);
      AppendFirstThenRest(p.slides, slideIds);
      AssignOverwrite(store, pid, added, p.(slides := p.slides + NewSlides(slideIds)));
    }
  }

  /** The provider's state: the committed store and the loading flag. */
  class PresentationStore {
    var store: Store
    var isLoading: bool

    /** `useState<Store>({})` and `useState(true)`. */
    constructor ()
      ensures store == map[] && isLoading
    {
      store := map[];
      isLoading := true;
    }

    /**
     * The initial fetch: on success the fetched store replaces `store` and
     * loading ends; on failure only a notification is raised, so `store`
     * and `isLoading` keep their values (right after construction: empty
     * and true).
     */
    method InitialFetch(fetchOk: bool, fetched: Store)
      modifies this
      ensures fetchOk ==> store == fetched && !isLoading
      ensures !fetchOk ==> store == old(store) && isLoading == old(isLoading)
    {
      if fetchOk {
        store := fetched;
        isLoading := false;
      }
    }

    /**
     * `setStoreApi(newStore).then(() => setStore(newStore)).catch(reject).finally(() => setIsLoading(false))`:
     * the store is committed iff the remote call succeeds, and loading ends either way.
     */
    method Persist(newStore: Store, remoteOk: bool) returns (ok: bool)
      modifies this
      ensures ok == remoteOk
      ensures store == if remoteOk then newStore else old(store)
      ensures !isLoading
    {
      if remoteOk {
        store := newStore;
      }
      ok := remoteOk;
      isLoading := false;
    }

    method CreatePresentation(id: string, name: string, description: string, slideId: string, now: int, remoteOk: bool)
      returns (ok: bool, sent: Store)
      modifies this
      ensures sent == CreatePresentationStore(old(store), id, name, description, slideId, now)
      ensures ok == remoteOk
      ensures store == if remoteOk then sent else old(store)
      ensures !isLoading
    {
      isLoading := true;
      sent := CreatePresentationStore(store, id, name, description, slideId, now);
      ok := Persist(sent, remoteOk);
    }

    method DeletePresentation(id: string, remoteOk: bool) returns (ok: bool, sent: Store)
      modifies this
      ensures sent == DeletePresentationStore(old(store), id)
      ensures ok == remoteOk
      ensures store == if remoteOk then sent else old(store)
      ensures !isLoading
    {
      isLoading := true;
      sent := DeletePresentationStore(store, id);
      ok := Persist(sent, remoteOk);
    }

    method UpdatePresentation(id: string, p: Presentation, remoteOk: bool) returns (ok: bool, sent: Store)
      modifies this
      ensures sent == UpdatePresentationStore(old(store), id, p)
      ensures ok == remoteOk
      ensures store == if remoteOk then sent else old(store)
      ensures !isLoading
    {
      isLoading := true;
      sent := UpdatePresentationStore(store, id, p);
      ok := Persist(sent, remoteOk);
    }

    /**
     * `createSlide(pid)`. When `pid` is absent the spread of
     * `store[pid].slides` throws after `setIsLoading(true)` and before the
     * promise chain with its `finally` exists: the call rejects, nothing is
     * sent, and `isLoading` stays true.
     */
    method CreateSlide(pid: string, slideId: string, remoteOk: bool) returns (ok: bool, sent: Option<Store>)
      modifies this
      ensures sent == CreateSlideStore(old(store), pid, slideId)
      ensures ok == (sent.Some? && remoteOk)
      ensures store == if ok then sent.value else old(store)
      ensures isLoading == sent.None?
    {
      isLoading := true;
      sent := CreateSlideStore(store, pid, slideId);
      if sent.None? {
        ok := false;
        return;
      }
      ok := Persist(sent.value, remoteOk);
    }
  }
}

/**
 * The older provider: the same persist-then-commit rule without a loading
 * flag, presentations without description or background, created with no
 * slides, and a local-only `clearLocalStore`.
 */
module LegacyStore {
  import opened Wrappers
  import opened Document
  import opened Spread

  /** The older `Presentation` type; its `Slide` is `any`, taken here as the current slide. */
  datatype LegacyPresentation = LegacyPresentation(
    id: string,
    name: string,
    slides: seq<Slide>,
    createAt: int,
    thumbnail: Option<string>,
    thumbnailType: Option<ImgType>)

  type LegacyStoreMap = map<string, LegacyPresentation>

  /** `newStore` of the older `createPresentation`: `id` maps to a presentation named `name` with no slides. */
  function CreatePresentationStore(store: LegacyStoreMap, id: string, name: string, now: int): (r: LegacyStoreMap)
    ensures r.Keys == store.Keys + {id}
    ensures r[id].id == id && r[id].name == name && r[id].slides == [] && r[id].createAt == now
    ensures forall q | q in store && q != id :: r[q] == store[q]
  {
    Assign(store, id, LegacyPresentation(id, name, [], now, None, None))
  }

  class LegacyStoreProvider {
    var store: LegacyStoreMap

    constructor ()
      ensures store == map[]
    {
      store := map[];
    }

    /** The initial fetch: success replaces `store`; failure leaves it as it was (empty right after construction). */
    method InitialFetch(fetchOk: bool, fetched: LegacyStoreMap)
      modifies this
      ensures store == if fetchOk then fetched else old(store)
    {
      if fetchOk {
        store := fetched;
      }
    }

    /** `setStoreApi(newStore).then(() => setStore(newStore)).catch(reject)`. */
    method Persist(newStore: LegacyStoreMap, remoteOk: bool) returns (ok: bool)
      modifies this
      ensures ok == remoteOk
      ensures store == if remoteOk then newStore else old(store)
    {
      if remoteOk {
        store := newStore;
      }
      ok := remoteOk;
    }

    method CreatePresentation(id: string, name: string, now: int, remoteOk: bool) returns (ok: bool, sent: LegacyStoreMap)
      modifies this
      ensures sent == CreatePresentationStore(old(store), id, name, now)
      ensures ok == remoteOk
      ensures store == if remoteOk then sent else old(store)
    {
      sent := CreatePresentationStore(store, id, name, now);
      ok := Persist(sent, remoteOk);
    }

    method DeletePresentation(id: string, remoteOk: bool) returns (ok: bool, sent: LegacyStoreMap)
      modifies this
      ensures sent == Omit(old(store), id)
      ensures ok == remoteOk
      ensures store == if remoteOk then sent else old(store)
    {
      sent := Omit(store, id);
      ok := Persist(sent, remoteOk);
    }

    method UpdatePresentation(id: string, p: LegacyPresentation, remoteOk: bool) returns (ok: bool, sent: LegacyStoreMap)
      modifies this
      ensures sent == Assign(old(store), id, p)
      ensures ok == remoteOk
      ensures store == if remoteOk then sent else old(store)
    {
      sent := Assign(store, id, p);
      ok := Persist(sent, remoteOk);
    }

    /** Resets the local copy only; the remote copy is not contacted. */
    method ClearLocalStore()
      modifies this
      ensures store == map[]
    {
      store := map[];
    }
  }
}
