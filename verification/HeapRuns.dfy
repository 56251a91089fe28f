/** Any sequence of malloc and free calls, whichever fitting block each malloc uses. */
module HeapRuns {
  import opened HeapArena
  import opened UserHeap

  /** asked remembers the bytes each live block was requested with. */
  datatype State = State(arena: Arena, asked: map<nat, nat>)

  datatype Event =
    | Allocate(size: nat, i: nat)
    | Extend(size: nat, at: nat, i: nat)
    | Release(b: nat)

  ghost predicate Enabled(s: State, e: Event) {
    match e
    case Allocate(size, i) => 0 < size && SizeOk(size) && i < |s.arena.free| && UnitsFor(size) <= s.arena.free[i].size
    case Extend(size, at, i) =>
      && 0 < size && SizeOk(size) && s.arena.top <= at
      && var g := Grow(s.arena, at, Granted(UnitsFor(size)));
      i < |g.free| && UnitsFor(size) <= g.free[i].size
    case Release(b) => b in s.arena.live
  }

  ghost function Serve(a: Arena, asked: map<nat, nat>, size: nat, i: nat): State
    requires i < |a.free| && UnitsFor(size) <= a.free[i].size
  {
    var (c, b) := Take(a, i, UnitsFor(size));
    State(c, asked[b := size])
  }

  ghost function Step(s: State, e: Event): State
    requires Enabled(s, e)
  {
    match e
    case Allocate(size, i) => Serve(s.arena, s.asked, size, i)
    case Extend(size, at, i) => Serve(Grow(s.arena, at, Granted(UnitsFor(size))), s.asked, size, i)
    case Release(b) => State(HeapArena.Release(s.arena, b), s.asked - {b})
  }

  /** The partition, and room for what was asked in every live block. */
  ghost predicate StateOk(s: State, base: nat) {
    && ArenaOk(s.arena, base) && s.asked.Keys == s.arena.live.Keys
    && forall b | b in s.asked :: s.arena.live[b] >= 1 && (s.arena.live[b] - 1) * UNIT >= s.asked[b]
  }

  lemma ServeOk(a: Arena, asked: map<nat, nat>, base: nat, size: nat, i: nat)
    requires StateOk(State(a, asked), base) && 0 < size && SizeOk(size) && i < |a.free| && UnitsFor(size) <= a.free[i].size
    ensures StateOk(Serve(a, asked, size, i), base)
  {
    hide ArenaOk, UnitsFor;
    UnitsBound(size);
    TakeOk(a, base, i, UnitsFor(size));
  }

  lemma GrowLive(a: Arena, base: nat, at: nat, units: nat)
    requires ArenaOk(a, base) && a.top <= at && units >= 1
    ensures ArenaOk(Grow(a, at, units), base) && Grow(a, at, units).live == a.live
  {
    GrowOk(a, base, at, units);
    forall b | b in a.live ensures b < a.top { LiveBelowTop(a, base, b); }
  }

  lemma LiveBelowTop(a: Arena, base: nat, b: nat)
    requires ArenaOk(a, base) && b in a.live
    ensures b < a.top
  {
    assert LiveTagged(a, b) && UnitOk(a, base, b);
  }

  lemma StepOk(s: State, base: nat, e: Event)
    requires StateOk(s, base) && Enabled(s, e)
    ensures StateOk(Step(s, e), base)
  {
    hide ArenaOk, UnitsFor, Grow, Serve;
    match e
    case Allocate(size, i) => ServeOk(s.arena, s.asked, base, size, i);
    case Extend(size, at, i) =>
      GrowLive(s.arena, base, at, Granted(UnitsFor(size)));
      ServeOk(Grow(s.arena, at, Granted(UnitsFor(size))), s.asked, base, size, i);
    case Release(b) => ReleaseOk(s.arena, base, b);
  }

  ghost predicate Legal(s: State, es: seq<Event>)
    decreases |es|
  {
    es == [] || (Enabled(s, es[0]) && Legal(Step(s, es[0]), es[1..]))
  }

  ghost function Run(s: State, es: seq<Event>): State
    requires Legal(s, es)
    decreases |es|
  {
    if es == [] then s else Run(Step(s, es[0]), es[1..])
  }

  /** Starting from no memory at all, every run keeps the free and live blocks an exact
      partition, with no two free blocks adjacent and every payload big enough. */
  lemma {:induction false} EveryRun(s: State, base: nat, es: seq<Event>)
    requires StateOk(s, base) && Legal(s, es)
    ensures StateOk(Run(s, es), base)
    decreases |es|
  {
    hide StateOk, Enabled, Step;
    if es != [] {
      StepOk(s, base, es[0]);
      EveryRun(Step(s, es[0]), base, es[1..]);
    }
  }

  /** In bytes: two live payloads of a run are disjoint and hold what was asked. */
  lemma PayloadsApart(s: State, base: nat, es: seq<Event>, b: nat, c: nat)
    requires StateOk(s, base) && Legal(s, es) && b in Run(s, es).asked && c in Run(s, es).asked && b < c
    ensures var t := Run(s, es); (b + 1) * UNIT + t.asked[b] <= c * UNIT
  {
    hide ArenaOk, Run;
    EveryRun(s, base, es);
    var t := Run(s, es);
    LiveDisjoint(t.arena, base, b, c);
  }

  lemma StartOk(base: nat)
    requires base > 0
    ensures StateOk(State(Arena([], map[], map[], base + 1), map[]), base)
  {
  }
}
