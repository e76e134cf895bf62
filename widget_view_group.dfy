/**
 * WidgetViewGroup: the container that spawns WidgetViews. The coroutine of
 * `init` is run here as a sequential loop; its `delay` calls advance a
 * millisecond clock instead of suspending, and the `Math.random()` draw behind
 * each delay is passed in.
 */
module Group {
  import opened Draws
  import opened Lifecycle
  import opened View

  /** Number of views the `init` loop spawns. */
  const SPAWN_COUNT: nat := 20

  /** `time()`: `(Math.random() * 5L).toLong()`, a delay of 0 to 4 milliseconds. */
  function Time(u: real): (delay: int)
    requires IsDraw(u)
    ensures 0 <= delay <= 4
  {
    TruncateScaledDraw(u, 5);
    Truncate(u * 5.0)
  }

  predicate AllDraws(draws: seq<real>) {
    forall k :: 0 <= k < |draws| ==> IsDraw(draws[k])
  }

  /** The clock after the first `n` delays of the spawn loop. */
  function Elapsed(draws: seq<real>, n: nat): (clock: int)
    requires n <= |draws| && AllDraws(draws)
    ensures 0 <= clock <= 4 * n
  {
    if n == 0 then 0 else Elapsed(draws, n - 1) + Time(draws[n - 1])
  }

  /** The `n`-th spawn happens within 4n milliseconds, and spawn times never decrease. */
  lemma {:induction false} ElapsedBounds(draws: seq<real>, n: nat)
    requires n <= |draws| && AllDraws(draws)
    ensures 0 <= Elapsed(draws, n) <= 4 * n
    ensures forall m :: 0 <= m <= n ==> Elapsed(draws, m) <= Elapsed(draws, n)
  {
    if n > 0 {
      ElapsedBounds(draws, n - 1);
    }
  }

  class WidgetViewGroup {
    /** `views`: the spawned views, in spawn order. */
    var views: seq<WidgetView>
    /** The layout's child list, which `addView` appends to. */
    var children: seq<WidgetView>
    /** Milliseconds elapsed on the spawning coroutine. */
    var clock: int
    /** `spawnTimes[k]` is the clock at which `views[k]` was created and added. */
    var spawnTimes: seq<int>

    constructor (draws: seq<real>)
      requires |draws| == SPAWN_COUNT && AllDraws(draws)
      ensures |views| == SPAWN_COUNT && children == views
      ensures forall k :: 0 <= k < |views| ==> fresh(views[k]) && views[k].State() == Initial()
      ensures forall j, k :: 0 <= j < k < |views| ==> views[j] != views[k]
      ensures |spawnTimes| == SPAWN_COUNT
      ensures forall k :: 0 <= k < SPAWN_COUNT ==> spawnTimes[k] == Elapsed(draws, k + 1)
      ensures clock == Elapsed(draws, SPAWN_COUNT) <= 4 * SPAWN_COUNT
    {
      views := [];
      children := [];
      clock := 0;
      spawnTimes := [];
      new;
      Init(draws);
    }

    /**
     * `init`: twenty times, wait `time()` milliseconds, create a view and add
     * it both to `views` and to the children. Each iteration appends at the
     * end, so earlier entries stay as they were and the order is the spawn
     * order; every view is new and none is added twice.
     */
    method Init(draws: seq<real>)
      requires |draws| == SPAWN_COUNT && AllDraws(draws)
      requires views == [] && children == [] && clock == 0 && spawnTimes == []
      modifies this
      ensures |views| == SPAWN_COUNT && children == views
      ensures forall k :: 0 <= k < |views| ==> fresh(views[k]) && views[k].State() == Initial()
      ensures forall j, k :: 0 <= j < k < |views| ==> views[j] != views[k]
      ensures |spawnTimes| == SPAWN_COUNT
      ensures forall k :: 0 <= k < SPAWN_COUNT ==> spawnTimes[k] == Elapsed(draws, k + 1)
      ensures clock == Elapsed(draws, SPAWN_COUNT) <= 4 * SPAWN_COUNT
    {
      for i := 0 to SPAWN_COUNT
        invariant |views| == i <= SPAWN_COUNT && children == views
        invariant forall k :: 0 <= k < i ==> fresh(views[k]) && views[k].State() == Initial()
        invariant forall j, k :: 0 <= j < k < i ==> views[j] != views[k]
        invariant |spawnTimes| == i
        invariant forall k :: 0 <= k < i ==> spawnTimes[k] == Elapsed(draws, k + 1)
        invariant clock == Elapsed(draws, i)
      {
        var view := Spawn(Time(draws[i]));
      }
      ElapsedBounds(draws, SPAWN_COUNT);
    }

    /**
     * One iteration of `init`: `delay(time())`, then a new view that is
     * appended to `views` and to the children, after everything already there.
     */
    method Spawn(delay: int) returns (view: WidgetView)
      modifies this
      ensures fresh(view) && view.State() == Initial()
      ensures views == old(views) + [view] && children == old(children) + [view]
      ensures clock == old(clock) + delay && spawnTimes == old(spawnTimes) + [clock]
    {
      clock := clock + delay;
      view := new WidgetView();
      views := views + [view];
      children := children + [view];
      spawnTimes := spawnTimes + [clock];
    }

    /** `noise()`: an empty extension point; it changes nothing. */
    method Noise()
      ensures unchanged(this)
    {
    }
  }
}
