/** The teleport rate limiter of `LobbyManager`: a map from player id to the
    time (milliseconds) of that player's last successful teleport, the check
    made before every teleport, the update made after one, and the delayed
    removal of an entry, written here as an explicit step. */
module Cooldown {
  import opened Text
  import opened Host

  /** `teleportCooldowns`: player id to last-teleport time in milliseconds. */
  type Cooldowns = map<Uuid, int>

  /** The window length as the source computes it: `teleportCooldown * 1000`
      is a product of two `int`s, so it wraps at 32 bits before it is widened
      to `long`. */
  function WindowMillis(seconds: Int32): Int32
  {
    Int32Wrap(seconds * 1000)
  }

  /** Largest configured cooldown whose product with 1000 still fits in an `int`. */
  const MaxExactSeconds: int := 2147483

  lemma WindowMillisExact(seconds: Int32)
    requires 0 <= seconds <= MaxExactSeconds
    ensures WindowMillis(seconds) == seconds * 1000
  {
  }

  /** One second more and the window wraps round to a large negative length. */
  lemma WindowMillisWrapsAboveLimit()
    ensures WindowMillis((MaxExactSeconds + 1) as Int32) == -2147483296
  {
  }

  /** Outcome of `verificarCooldown`: `Ready` is `true`; `CoolingDown` is `false`
      together with the number of seconds reported to the player. */
  datatype Verdict = Ready | CoolingDown(seconds: Int32)

  /** `tempoRestante`: how many milliseconds of the window are left. */
  function RemainingMillis(m: Cooldowns, seconds: Int32, u: Uuid, now: int): int
    requires u in m
  {
    m[u] + WindowMillis(seconds) - now
  }

  /** `(int) (tempoRestante / 1000) + 1`: a `long` division (exact here, the
      operand is positive), a narrowing cast, and an `int` increment. */
  function ReportedSeconds(remaining: int): Int32
    requires remaining > 0
  {
    Int32Wrap(Int32Wrap(remaining / 1000) + 1)
  }

  /** `verificarCooldown`. */
  function Check(m: Cooldowns, seconds: Int32, u: Uuid, now: int): Verdict
  {
    if u in m && RemainingMillis(m, seconds, u, now) > 0
    then CoolingDown(ReportedSeconds(RemainingMillis(m, seconds, u, now)))
    else Ready
  }

  /** `aplicarCooldown`: record `now` for this player. */
  function Apply(m: Cooldowns, u: Uuid, now: int): Cooldowns
  {
    m[u := now]
  }

  /** The delayed task scheduled by `aplicarCooldown`: remove this player's entry. */
  function Expire(m: Cooldowns, u: Uuid): Cooldowns
  {
    m - {u}
  }

  // ---------------------------------------------------------------------------
  // Properties of a single check

  /** A player with no entry always passes. */
  lemma NoEntryPasses(m: Cooldowns, seconds: Int32, u: Uuid, now: int)
    requires u !in m
    ensures Check(m, seconds, u, now) == Ready
  {
  }

  /** The check fails exactly when the stored time plus the window lies after `now`. */
  lemma CheckFailsIffWindowOpen(m: Cooldowns, seconds: Int32, u: Uuid, now: int)
    requires u in m
    ensures Check(m, seconds, u, now).CoolingDown? <==> m[u] + WindowMillis(seconds) - now > 0
  {
  }

  /** The reported wait is the remaining time rounded up to whole seconds
      (plus one when it is a whole number of seconds), so it is at least one
      and waiting that long is enough. This holds whenever the remaining time
      is below what the cast to `int` can carry. */
  lemma {:induction false} ReportedSecondsCoverRemaining(remaining: int)
    requires 0 < remaining < 1000 * MaxInt32
    ensures var w := ReportedSeconds(remaining);
      1 <= w && (w - 1) * 1000 <= remaining < w * 1000
  {
    var q := remaining / 1000;
    assert 0 <= q < MaxInt32;
    assert Int32Wrap(q) == q;
    assert Int32Wrap(q + 1) == q + 1;
    assert q * 1000 <= remaining < (q + 1) * 1000;
  }

  /** A player whose entry is not in the future is never told to wait less
      than one second, and the wait told covers the rest of the window. */
  lemma {:induction false} ReportedWaitCoversWindow(m: Cooldowns, seconds: Int32, u: Uuid, now: int)
    requires u in m && m[u] <= now
    requires Check(m, seconds, u, now).CoolingDown?
    ensures var w := Check(m, seconds, u, now).seconds;
      1 <= w && now + w * 1000 > m[u] + WindowMillis(seconds)
  {
    var r := RemainingMillis(m, seconds, u, now);
    assert 0 < r <= MaxInt32;
    ReportedSecondsCoverRemaining(r);
  }

  // ---------------------------------------------------------------------------
  // Properties of the entry lifecycle

  /** After a teleport at `t`, the same player passes again exactly from `t` plus the window on. */
  lemma CheckAfterApply(m: Cooldowns, seconds: Int32, u: Uuid, t: int, later: int)
    ensures Check(Apply(m, u, t), seconds, u, later) == Ready <==> later >= t + WindowMillis(seconds)
  {
  }

  /** Recording or expiring one player's entry leaves every other player's check as it was. */
  lemma OtherPlayersUnaffected(m: Cooldowns, seconds: Int32, u: Uuid, v: Uuid, t: int, now: int)
    requires u != v
    ensures Check(Apply(m, u, t), seconds, v, now) == Check(m, seconds, v, now)
    ensures Check(Expire(m, u), seconds, v, now) == Check(m, seconds, v, now)
  {
  }

  /** `aplicarCooldown` changes only the teleporting player's entry. */
  lemma ApplyChangesOnlyOneEntry(m: Cooldowns, u: Uuid, t: int)
    ensures Apply(m, u, t).Keys == m.Keys + {u} && Apply(m, u, t)[u] == t
    ensures forall v :: v in m && v != u ==> Apply(m, u, t)[v] == m[v]
  {
  }

  /** The delayed removal frees the player unconditionally, even when the
      entry was refreshed by a later teleport after the task was scheduled:
      the earlier task then cuts the later cooldown short. */
  lemma StaleRemovalCutsRefreshedCooldown(m: Cooldowns, seconds: Int32, u: Uuid, t1: int, t2: int, now: int)
    ensures Check(Expire(Apply(Apply(m, u, t1), u, t2), u), seconds, u, now) == Ready
  {
  }

  // ---------------------------------------------------------------------------
  // Rate limiting over a run of events

  /** What can happen to the map: a teleport attempt of `player` at time `at`
      whose guards other than the cooldown pass or not (`othersPass`), the
      delayed removal of a player's entry, or `finalizar` emptying the map. */
  datatype Event = Attempt(player: Uuid, at: int, othersPass: bool) | Expiry(player: Uuid) | Finalize

  /** An attempt succeeds when its other guards pass and the cooldown check passes. */
  predicate Succeeds(m: Cooldowns, seconds: Int32, e: Event)
    requires e.Attempt?
  {
    e.othersPass && Check(m, seconds, e.player, e.at) == Ready
  }

  function Step(m: Cooldowns, seconds: Int32, e: Event): Cooldowns
  {
    match e
    case Attempt(u, t, _) => if Succeeds(m, seconds, e) then Apply(m, u, t) else m
    case Expiry(u) => Expire(m, u)
    case Finalize => map[]
  }

  /** The times at which `u` teleported while `es` was run from `m`. */
  function SuccessTimes(m: Cooldowns, seconds: Int32, u: Uuid, es: seq<Event>): seq<int>
    decreases |es|
  {
    if es == [] then []
    else
      var e := es[0];
      var rest := SuccessTimes(Step(m, seconds, e), seconds, u, es[1..]);
      if e.Attempt? && e.player == u && Succeeds(m, seconds, e) then [e.at] + rest else rest
  }

  /** The event frees `u`'s entry. */
  predicate Frees(e: Event, u: Uuid)
  {
    e.Finalize? || (e.Expiry? && e.player == u)
  }

  /** Each time is at least `gap` after the one before it. */
  predicate SpacedBy(ts: seq<int>, gap: int)
  {
    forall i :: 0 <= i < |ts| - 1 ==> ts[i + 1] >= ts[i] + gap
  }

  /** The rate limit: as long as nothing removes `u`'s entry, consecutive
      teleports of `u` are at least one window apart, and the first one is at
      least one window after the entry already stored. */
  lemma {:induction false} TeleportsAreSpaced(m: Cooldowns, seconds: Int32, u: Uuid, es: seq<Event>)
    requires forall i :: 0 <= i < |es| ==> !Frees(es[i], u)
    ensures var ts := SuccessTimes(m, seconds, u, es);
      && (u in m && |ts| > 0 ==> ts[0] >= m[u] + WindowMillis(seconds))
      && SpacedBy(ts, WindowMillis(seconds))
    decreases |es|
  {
    if es != [] {
      var e := es[0];
      var m' := Step(m, seconds, e);
      assert forall i :: 0 <= i < |es[1..]| ==> !Frees(es[1..][i], u) by {
        forall i | 0 <= i < |es[1..]| ensures !Frees(es[1..][i], u) {
          assert es[1..][i] == es[i + 1];
        }
      }
      TeleportsAreSpaced(m', seconds, u, es[1..]);
      assert !Frees(e, u) by { assert e == es[0]; }
      var rest := SuccessTimes(m', seconds, u, es[1..]);
      if e.Attempt? && e.player == u && Succeeds(m, seconds, e) {
        assert m'[u] == e.at;
        var ts := [e.at] + rest;
        assert ts == SuccessTimes(m, seconds, u, es);
        forall i | 0 <= i < |ts| - 1 ensures ts[i + 1] >= ts[i] + WindowMillis(seconds) {
          if i > 0 { assert ts[i + 1] == rest[i] && ts[i] == rest[i - 1]; }
        }
      } else {
        assert u in m ==> u in m' && m'[u] == m[u];
        assert SuccessTimes(m, seconds, u, es) == rest;
      }
    }
  }
}
