/** What a client reports of its own player: `PlayerSync::SendLocalState`. */
module Sender {
  import opened Wrappers
  import opened Protocol
  import opened Delta
  import opened GameplaySync

  const SEND_INTERVAL_MS := 50.0
  const MOVED_EPSILON := 0.01
  const HEALTH_EPSILON := 0.5
  const SENT_ANIM_EPSILON := 0.02
  const NOT_IN_TRAVERSAL := 0

  /** What is read from the game at one moment. */
  datatype Reading = Reading(
    position: Vec3, velocity: Vec3, rotation: Rotation, health: real, maxHealth: real, anim: Anim, gameplay: Packet)

  /** The values last sent, and when the last check was. */
  datatype Sent = Sent(position: Vec3, health: real, anim: Anim, checkedMs: real)

  const NOTHING_SENT := Sent(ORIGIN, -1.0, DEFAULT_ANIM, 0.0)

  const NO_CHANGE := Patch(None, None, None, None, None, None, None, NO_GAMEPLAY)

  predicate AnimMoved(a: Anim, b: Anim) {
    a.id != b.id || a.moveFlags != b.moveFlags || a.combatFlags != b.combatFlags
        || Far(a.time, b.time, SENT_ANIM_EPSILON)
  }

  predicate WorthSending(s: Sent, r: Reading) {
    || VecChanged(r.position, s.position, MOVED_EPSILON)
    || Far(r.health, s.health, HEALTH_EPSILON)
    || AnimMoved(r.anim, s.anim)
    || (r.gameplay.traversalPresent && r.gameplay.traversal.mode != NOT_IN_TRAVERSAL)
  }

  function StatePatch(r: Reading): Patch {
    Patch(Some(r.position), Some(r.rotation), Some(r.velocity), Some(r.health), Some(r.maxHealth), Some(r.anim), None,
        Emit(r.gameplay))
  }

  function AnimPatch(r: Reading): Patch {
    NO_CHANGE.(anim := Some(r.anim))
  }

  /** A check goes ahead: connected, not suspended by a cutscene, and long enough after the one before. */
  predicate Open(s: Sent, connected: bool, suspended: bool, nowMs: real) {
    connected && !suspended && nowMs - s.checkedMs >= SEND_INTERVAL_MS
  }

  datatype Outcome = Outcome(sent: Sent, patches: seq<Patch>)

  /** One call of `SendLocalState`; `None` when the player cannot be found in memory. */
  function Check(s: Sent, connected: bool, suspended: bool, nowMs: real, reading: Option<Reading>): Outcome {
    if !Open(s, connected, suspended, nowMs) then Outcome(s, [])
    else
      var timed := s.(checkedMs := nowMs);
      if reading.None? || !WorthSending(s, reading.value) then Outcome(timed, [])
      else
        var r := reading.value;
        Outcome(Sent(r.position, r.health, r.anim, nowMs),
                [StatePatch(r)] + if AnimMoved(r.anim, s.anim) then [AnimPatch(r)] else [])
  }

  /** The fields of a `PlayerSync` that a check reads and writes. */
  class LocalPlayer {
    var lastPos: Vec3
    var lastHealth: real
    var lastAnim: Anim
    var lastSendMs: real
    var suspended: bool

    function View(): Sent
      reads this
    {
      Sent(lastPos, lastHealth, lastAnim, lastSendMs)
    }

    constructor ()
      ensures View() == NOTHING_SENT && !suspended
    {
      lastPos, lastHealth, lastAnim, lastSendMs, suspended := ORIGIN, -1.0, DEFAULT_ANIM, 0.0, false;
    }

    method SetSuspended(active: bool)
      modifies this`suspended
      ensures suspended == active
    {
      suspended := active;
    }

    method SendLocalState(connected: bool, nowMs: real, reading: Option<Reading>) returns (patches: seq<Patch>)
      modifies this`lastPos, this`lastHealth, this`lastAnim, this`lastSendMs
      ensures Outcome(View(), patches) == Check(old(View()), connected, suspended, nowMs, reading)
    {
      patches := [];
      if !connected || suspended || nowMs - lastSendMs < SEND_INTERVAL_MS {
        return;
      }
      lastSendMs := nowMs;
      if reading.None? {
        return;
      }
      var r := reading.value;
      var moved := VecChanged(r.position, lastPos, MOVED_EPSILON);
      var healthChanged := Far(r.health, lastHealth, HEALTH_EPSILON);
      var animChanged := AnimMoved(r.anim, lastAnim);
      var inTraversal := r.gameplay.traversalPresent && r.gameplay.traversal.mode != NOT_IN_TRAVERSAL;
      if !moved && !healthChanged && !animChanged && !inTraversal {
        return;
      }
      patches := [StatePatch(r)];
      if animChanged {
        patches := patches + [AnimPatch(r)];
      }
      lastPos, lastHealth, lastAnim := r.position, r.health, r.anim;
    }
  }

  /** The server's entry after these patches. */
  function MergePatches(cur: PlayerState, patches: seq<Patch>): PlayerState
    decreases |patches|
  {
    if |patches| == 0 then cur else MergePatches(Merge(cur, patches[0]), patches[1..])
  }

  lemma {:induction false} MergePatchesConcat(cur: PlayerState, a: seq<Patch>, b: seq<Patch>)
    ensures MergePatches(cur, a + b) == MergePatches(MergePatches(cur, a), b)
    decreases |a|
  {
    if |a| == 0 {
      assert a + b == b;
    } else {
      assert (a + b)[1..] == a[1..] + b;
      MergePatchesConcat(Merge(cur, a[0]), a[1..], b);
    }
  }

  /** What a check sends sets the server's entry to exactly what was read, and to what the sender remembers as sent. */
  lemma CheckedIsMerged(
      cur: PlayerState, s: Sent, connected: bool, suspended: bool, nowMs: real, reading: Option<Reading>)
    ensures var o := Check(s, connected, suspended, nowMs, reading);
            var after := MergePatches(cur, o.patches);
            if o.patches == [] then after == cur && o.sent == s.(checkedMs := o.sent.checkedMs)
            else
              && reading.Some?
              && var r := reading.value;
                 && after == cur.(position := r.position, rotation := r.rotation, velocity := r.velocity,
                                  health := r.health, maxHealth := r.maxHealth, anim := r.anim,
                                  gameplay := MergeGameplay(cur.gameplay, Emit(r.gameplay)))
                 && o.sent.position == r.position && o.sent.health == r.health && o.sent.anim == r.anim
  {
    var o := Check(s, connected, suspended, nowMs, reading);
    if o.patches != [] {
      var r := reading.value;
      var first := Merge(cur, StatePatch(r));
      assert MergePatches(cur, o.patches) == MergePatches(first, o.patches[1..]);
      if |o.patches| == 2 {
        assert o.patches[1..] == [AnimPatch(r)];
        AnimChangesNothing(first, r);
        assert MergePatches(first, [AnimPatch(r)]) == MergePatches(Merge(first, AnimPatch(r)), [AnimPatch(r)][1..]);
      }
    }
  }

  /** The animation update repeats what the state update said. */
  lemma AnimChangesNothing(cur: PlayerState, r: Reading)
    requires cur.anim == r.anim
    ensures Merge(cur, AnimPatch(r)) == cur
  {}

  /** After an open check the sender remembers its real values closely enough. */
  lemma CheckedIsClose(s: Sent, connected: bool, suspended: bool, nowMs: real, r: Reading)
    requires Open(s, connected, suspended, nowMs)
    ensures var t := Check(s, connected, suspended, nowMs, Some(r)).sent;
            && NearVec(r.position, t.position, MOVED_EPSILON) && Near(r.health, t.health, HEALTH_EPSILON)
            && r.anim.id == t.anim.id && r.anim.moveFlags == t.anim.moveFlags
                && r.anim.combatFlags == t.anim.combatFlags
            && Near(r.anim.time, t.anim.time, SENT_ANIM_EPSILON)
  {}

  /** What a client that has sent nothing takes for nothing new. */
  ghost predicate LooksUnsent(r: Reading) {
    && NearVec(r.position, ORIGIN, MOVED_EPSILON) && Near(r.health, -1.0, HEALTH_EPSILON)
    && r.anim.id == 0 && r.anim.moveFlags == 0 && r.anim.combatFlags == 0 && Near(r.anim.time, 0.0, SENT_ANIM_EPSILON)
    && !(r.gameplay.traversalPresent && r.gameplay.traversal.mode != NOT_IN_TRAVERSAL)
  }

  /** The first thing a client sends: an open check, with nothing sent so far, is silent exactly on such a reading. */
  lemma FirstSend(s: Sent, connected: bool, suspended: bool, nowMs: real, r: Reading)
    requires s == NOTHING_SENT.(checkedMs := s.checkedMs)
    ensures Check(s, connected, suspended, nowMs, Some(r)).patches == [] <==>
            !Open(s, connected, suspended, nowMs) || LooksUnsent(r)
    ensures Check(s, connected, suspended, nowMs, Some(r)).patches == [] ==>
              var t := Check(s, connected, suspended, nowMs, Some(r)).sent; t == s.(checkedMs := t.checkedMs)
  {}

  // ---- what a check does ---------------------------------------------------------------------------------------

  /** The animation is another, or further on than by a fiftieth. */
  ghost predicate AnimNews(was: Anim, now: Anim) {
    now.id != was.id || now.moveFlags != was.moveFlags || now.combatFlags != was.combatFlags
        || !Near(now.time, was.time, 0.02)
  }

  ghost predicate News(s: Sent, r: Reading) {
    || !NearVec(r.position, s.position, 0.01) || !Near(r.health, s.health, 0.5) || AnimNews(s.anim, r.anim)
    || (r.gameplay.traversalPresent && r.gameplay.traversal.mode != 0)
  }

  /** A state update: everything that was read, and the gameplay blocks that were. */
  ghost predicate Reports(patch: Patch, r: Reading) {
    && patch.position == Some(r.position) && patch.rotation == Some(r.rotation) && patch.velocity == Some(r.velocity)
    && patch.health == Some(r.health) && patch.maxHealth == Some(r.maxHealth) && patch.anim == Some(r.anim)
    && patch.ping == None && Whole(patch.gameplay)
    && forall k: Kind :: Carried(patch.gameplay, k) == BlockOf(r.gameplay, k)
  }

  ghost predicate AnimOnly(patch: Patch, anim: Anim) {
    patch == Patch(None, None, None, None, None, Some(anim), None, NO_GAMEPLAY)
  }

  /**
   At most every 50 milliseconds while connected and not suspended, news is sent: a state update, and an animation
   update if that is news. Otherwise nothing is sent, and nothing but the time of the check remembered.
   */
  lemma CheckTakesEffect(s: Sent, connected: bool, suspended: bool, nowMs: real, reading: Option<Reading>)
    ensures var o := Check(s, connected, suspended, nowMs, reading);
            if !connected || suspended || nowMs - s.checkedMs < 50.0 then o == Outcome(s, [])
            else if reading.None? || !News(s, reading.value) then o == Outcome(s.(checkedMs := nowMs), [])
            else
              var r := reading.value;
              && o.sent == Sent(r.position, r.health, r.anim, nowMs)
              && |o.patches| == (if AnimNews(s.anim, r.anim) then 2 else 1) && Reports(o.patches[0], r)
              && (|o.patches| == 2 ==> AnimOnly(o.patches[1], r.anim))
  {
    if reading.Some? {
      forall k: Kind ensures Carried(Emit(reading.value.gameplay), k) == BlockOf(reading.value.gameplay, k) {
        EmittedBlock(reading.value.gameplay, k);
      }
      EmittedBlock(reading.value.gameplay, Traversing);
    }
  }
}
