/**
 * The presence tracker: per-face observation records keyed by the camera's face id,
 * the upsert done for every detection batch, and the aging rule the periodic tick applies.
 * Timestamps are integer milliseconds; the source's `moment` differences are subtractions.
 */
module Presence {
  import opened Optional

  type FaceId = int

  /** TIMER_VISITOR_DECTION_RATE: the debounce window, also used as the silence timeout. */
  const DetectionRate: int := 1000

  /** When a face id was first reported, and when it was last reported again (null until then). */
  datatype FaceObs = FaceObs(firstSeen: int, lastSeen: Option<int>)

  type Faces = map<FaceId, FaceObs>

  /** Upsert of one face of a detection batch seen at `now`. */
  function Upsert(m: Faces, id: FaceId, now: int): (r: Faces)
    ensures r.Keys == m.Keys + {id}
    ensures forall k :: k in m && k != id ==> r[k] == m[k]
  {
    if id in m then m[id := FaceObs(m[id].firstSeen, Some(now))]
    else m[id := FaceObs(now, None)]
  }

  /** A whole detection batch, processed in order, all faces stamped `now`. */
  function Observe(m: Faces, ids: seq<FaceId>, now: int): (r: Faces)
    ensures m.Keys <= r.Keys
    ensures forall k :: k in r && k !in m ==> r[k].firstSeen == now
  {
    if ids == [] then m
    else Upsert(Observe(m, ids[..|ids| - 1], now), ids[|ids| - 1], now)
  }

  /**
   * What a batch does to the map: every reported id is present afterwards; a known id keeps
   * its firstSeen and gets lastSeen = now; an unseen id gets firstSeen = now, and lastSeen
   * stays null unless the same id occurs more than once in the batch; nothing else changes.
   */
  lemma {:induction false} ObserveEffect(m: Faces, ids: seq<FaceId>, now: int)
    ensures Observe(m, ids, now).Keys == m.Keys + (set k | k in ids)
    ensures forall k :: k in m && k !in ids ==> Observe(m, ids, now)[k] == m[k]
    ensures forall k :: k in m && k in ids ==>
      Observe(m, ids, now)[k] == FaceObs(m[k].firstSeen, Some(now))
    ensures forall k :: k !in m && k in ids ==>
      Observe(m, ids, now)[k] == FaceObs(now, if multiset(ids)[k] > 1 then Some(now) else None)
  {
    if ids != [] {
      var init, x := ids[..|ids| - 1], ids[|ids| - 1];
      assert ids == init + [x];
      assert multiset(ids) == multiset(init) + multiset{x};
      ObserveEffect(m, init, now);
      forall k | k in ids
        ensures k in init || k == x
      {
        var i :| 0 <= i < |ids| && ids[i] == k;
        if i < |ids| - 1 { assert init[i] == k; }
      }
    }
  }

  /** A face the tick considers gone: old enough, and never seen again or not seen for over the window. */
  predicate Gone(o: FaceObs, now: int)
  {
    now - o.firstSeen >= DetectionRate &&
    (o.lastSeen.None? || now - o.lastSeen.value > DetectionRate)
  }

  /** A face that lets the tick assert that someone is standing in front of the kiosk. */
  predicate Confirms(o: FaceObs, now: int)
    ensures Confirms(o, now) ==> o.lastSeen.Some? && !Gone(o, now)
  {
    now - o.firstSeen >= DetectionRate && o.lastSeen.Some? &&
    now - o.lastSeen.value < DetectionRate
  }

  /** The map the tick leaves behind: every face it considers gone is deleted. */
  function Sweep(m: Faces, now: int): (r: Faces)
    ensures forall k :: k in r <==> k in m && !Gone(m[k], now)
    ensures forall k :: k in r ==> r[k] == m[k]
    ensures forall k :: k in m && now - m[k].firstSeen < DetectionRate ==> k in r
    ensures forall k :: k in m && m[k].lastSeen.Some? && now - m[k].lastSeen.value <= DetectionRate ==> k in r
  {
    map k | k in m && !Gone(m[k], now) :: m[k]
  }

  /** Some tracked face confirms a presence at `now`. */
  predicate RaisesPresence(m: Faces, now: int)
  {
    exists k :: k in m && Confirms(m[k], now)
  }

  /** The face that raises presence survives the sweep, so a tick never raises and clears together. */
  lemma RaiseKeepsAFace(m: Faces, now: int)
    requires RaisesPresence(m, now)
    ensures Sweep(m, now) != map[]
  {
    var k :| k in m && Confirms(m[k], now);
    assert k in Sweep(m, now);
  }

  /** A face reported only once (lastSeen still null) can never raise presence, whatever the time. */
  lemma SingleSightingNeverRaises(m: Faces, now: int)
    requires forall k :: k in m ==> m[k].lastSeen.None?
    ensures !RaisesPresence(m, now)
  {
  }
}
