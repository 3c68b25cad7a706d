/**
 * The `App` component's state: galaxy and solar-system parameter records, the
 * lists of user-added asteroids and comets, and the focus mode, together with the
 * handlers that build each new state from the old one without mutating it.
 */
module App {
  import opened Common

  /** The values a parameter record holds. */
  datatype Value = Num(n: real) | Text(s: string) | Flag(b: bool) | Triple(v: seq<real>)

  /** A JavaScript object used as a record: field name to value. */
  type Record = map<string, Value>

  datatype AppState = AppState(
    galaxyParams: Record,
    solarSystemParams: Record,
    customAsteroids: seq<Record>,
    customComets: seq<Record>,
    focusMode: string)

  /** The state the `useState` calls start from. */
  function InitialState(): (s: AppState)
    ensures s.customAsteroids == [] && s.customComets == [] && s.focusMode == "galaxy"
    ensures s.galaxyParams.Keys == {"particleCount", "galaxyRadius", "galaxyThickness", "rotationSpeed"}
    ensures s.solarSystemParams.Keys == {"scale", "position"}
  {
    AppState(
      map["particleCount" := Num(10000.0), "galaxyRadius" := Num(10.0),
          "galaxyThickness" := Num(2.0), "rotationSpeed" := Num(0.05)],
      map["scale" := Num(0.1), "position" := Triple([3.0, 0.0, 5.0])],
      [], [], "galaxy")
  }

  /** `{ ...prev, ...newParams }`: later keys win. */
  function Merge(prev: Record, newParams: Record): (r: Record)
    ensures r.Keys == prev.Keys + newParams.Keys
    ensures forall k :: k in newParams ==> r[k] == newParams[k]
    ensures forall k :: k in prev && k !in newParams ==> r[k] == prev[k]
  {
    prev + newParams
  }

  /** Merging the same parameters twice is the same as merging them once. */
  lemma MergeIdempotent(prev: Record, newParams: Record)
    ensures Merge(Merge(prev, newParams), newParams) == Merge(prev, newParams)
  {
  }

  /** `{ ...params, id: Date.now() }`. */
  function WithId(params: Record, now: real): Record {
    params + map["id" := Num(now)]
  }

  /** The `id` of a list entry, if it has one. */
  function IdOf(r: Record): Option<Value> {
    if "id" in r then Some(r["id"]) else None
  }

  /** `[...list, { ...params, id: now }]`. */
  function Append(list: seq<Record>, params: Record, now: real): (r: seq<Record>)
    ensures |r| == |list| + 1 && r[..|list|] == list
    ensures IdOf(r[|list|]) == Some(Num(now))
    ensures forall k :: k in params && k != "id" ==> k in r[|list|] && r[|list|][k] == params[k]
    ensures r[|list|].Keys == params.Keys + {"id"}
  {
    list + [WithId(params, now)]
  }

  /** `list.filter(entry => entry.id !== id)`: the entries whose id is not `id`, in order. */
  function RemoveId(list: seq<Record>, id: real): (r: seq<Record>)
    ensures |r| <= |list|
    ensures forall e :: e in r ==> e in list && IdOf(e) != Some(Num(id))
  {
    if |list| == 0 then []
    else (if IdOf(list[0]) != Some(Num(id)) then [list[0]] else []) + RemoveId(list[1..], id)
  }

  /** Filtering keeps every entry whose id differs. */
  lemma {:induction false} RemoveIdKeeps(list: seq<Record>, id: real, e: Record)
    requires e in list && IdOf(e) != Some(Num(id))
    ensures e in RemoveId(list, id)
  {
    if list[0] != e {
      RemoveIdKeeps(list[1..], id, e);
    }
  }

  /** Filtering a concatenation filters each part: the kept entries stay in their order. */
  lemma {:induction false} RemoveIdConcat(xs: seq<Record>, ys: seq<Record>, id: real)
    ensures RemoveId(xs + ys, id) == RemoveId(xs, id) + RemoveId(ys, id)
  {
    if |xs| == 0 {
      assert xs + ys == ys;
    } else {
      assert (xs + ys)[1..] == xs[1..] + ys;
      RemoveIdConcat(xs[1..], ys, id);
    }
  }

  /** Removing an id no entry has leaves the list as it was. */
  lemma {:induction false} RemoveUnknownId(list: seq<Record>, id: real)
    requires forall e :: e in list ==> IdOf(e) != Some(Num(id))
    ensures RemoveId(list, id) == list
  {
    if |list| > 0 {
      assert list[0] in list;
      assert forall e :: e in list[1..] ==> e in list;
      RemoveUnknownId(list[1..], id);
    }
  }

  /** `handleAddAsteroid`: one more asteroid, stamped with the current time; nothing else changes. */
  function AddAsteroid(s: AppState, params: Record, now: real): (s': AppState)
    ensures s'.customAsteroids == Append(s.customAsteroids, params, now)
    ensures s'.customComets == s.customComets && s'.galaxyParams == s.galaxyParams
    ensures s'.solarSystemParams == s.solarSystemParams && s'.focusMode == s.focusMode
  {
    s.(customAsteroids := s.customAsteroids + [WithId(params, now)])
  }

  /** `handleAddComet`: one more comet, stamped with the current time; nothing else changes. */
  function AddComet(s: AppState, params: Record, now: real): (s': AppState)
    ensures s'.customComets == Append(s.customComets, params, now)
    ensures s'.customAsteroids == s.customAsteroids && s'.galaxyParams == s.galaxyParams
    ensures s'.solarSystemParams == s.solarSystemParams && s'.focusMode == s.focusMode
  {
    s.(customComets := s.customComets + [WithId(params, now)])
  }

  /** `handleRemoveAsteroid`. */
  function RemoveAsteroid(s: AppState, id: real): (s': AppState)
    ensures s'.customAsteroids == RemoveId(s.customAsteroids, id)
    ensures s'.customComets == s.customComets && s'.galaxyParams == s.galaxyParams
    ensures s'.solarSystemParams == s.solarSystemParams && s'.focusMode == s.focusMode
  {
    s.(customAsteroids := RemoveId(s.customAsteroids, id))
  }

  /** `handleRemoveComet`. */
  function RemoveComet(s: AppState, id: real): (s': AppState)
    ensures s'.customComets == RemoveId(s.customComets, id)
    ensures s'.customAsteroids == s.customAsteroids && s'.galaxyParams == s.galaxyParams
    ensures s'.solarSystemParams == s.solarSystemParams && s'.focusMode == s.focusMode
  {
    s.(customComets := RemoveId(s.customComets, id))
  }

  /** `updateGalaxyParams`. */
  function UpdateGalaxyParams(s: AppState, newParams: Record): (s': AppState)
    ensures s'.galaxyParams == Merge(s.galaxyParams, newParams)
    ensures s'.solarSystemParams == s.solarSystemParams
    ensures s'.customAsteroids == s.customAsteroids && s'.customComets == s.customComets
    ensures s'.focusMode == s.focusMode
  {
    s.(galaxyParams := s.galaxyParams + newParams)
  }

  /** `updateSolarSystemParams`. */
  function UpdateSolarSystemParams(s: AppState, newParams: Record): (s': AppState)
    ensures s'.solarSystemParams == Merge(s.solarSystemParams, newParams)
    ensures s'.galaxyParams == s.galaxyParams
    ensures s'.customAsteroids == s.customAsteroids && s'.customComets == s.customComets
    ensures s'.focusMode == s.focusMode
  {
    s.(solarSystemParams := s.solarSystemParams + newParams)
  }

  /**
   * Adding an asteroid and then removing its id restores the list, provided no
   * earlier asteroid carried the same timestamp.
   */
  lemma AddThenRemove(s: AppState, params: Record, now: real)
    requires forall e :: e in s.customAsteroids ==> IdOf(e) != Some(Num(now))
    ensures RemoveAsteroid(AddAsteroid(s, params, now), now) == s
  {
    RemoveIdConcat(s.customAsteroids, [WithId(params, now)], now);
    RemoveUnknownId(s.customAsteroids, now);
    assert RemoveId([WithId(params, now)], now) == [];
  }

  /**
   * Ids are timestamps, so two asteroids added within the same millisecond share
   * an id, and removing one of them removes both.
   */
  lemma SameMillisecondAdds(s: AppState, a: Record, b: Record, now: real)
    ensures var s' := AddAsteroid(AddAsteroid(s, a, now), b, now);
      && |s'.customAsteroids| == |s.customAsteroids| + 2
      && IdOf(s'.customAsteroids[|s.customAsteroids|]) == IdOf(s'.customAsteroids[|s.customAsteroids| + 1])
      && RemoveAsteroid(s', now).customAsteroids == RemoveId(s.customAsteroids, now)
  {
    var l := s.customAsteroids;
    assert AddAsteroid(AddAsteroid(s, a, now), b, now).customAsteroids == l + [WithId(a, now), WithId(b, now)];
    RemoveIdConcat(l, [WithId(a, now), WithId(b, now)], now);
    assert [WithId(a, now), WithId(b, now)][1..] == [WithId(b, now)];
  }
}
