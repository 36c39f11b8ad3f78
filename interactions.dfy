/**
 * Contact interactions of a living cell with its neighbours (phagocytosis,
 * attack, fusion) and the transformation of a cell into another cell
 * definition. Randomness is an injected stream: `draw(k)` is the k-th
 * uniform draw of the call.
 */
module CellInteractions {
  import opened Optional

  /** Neighbours with a total volume below this end the scan. */
  const MinimumTargetVolume: real := 0.000000000000001

  /** What the scan sees of one neighbour. */
  datatype Target = Target(
    id: nat,
    typeName: string,
    totalVolume: real,
    dead: bool,
    /** The neighbour's immunogenicity towards the scanning cell's type. */
    immunogenicity: real)

  /** The scanning cell's interaction rates in 1/min; the per-type ones are looked up by the neighbour's type name. */
  datatype InteractionRates = InteractionRates(
    deadPhagocytosisRate: real,
    livePhagocytosisRate: string -> real,
    attackRate: string -> real,
    fusionRate: string -> real)

  datatype InteractionKind = PhagocytoseDead | PhagocytoseLive | AttackCell | FuseCell

  /** One interaction of the scanning cell with the neighbour `target`. */
  datatype Interaction = Interaction(kind: InteractionKind, target: nat)

  /** Which of the one-per-call interactions have already happened. */
  datatype Flags = Flags(phagocytosed: bool, attacked: bool, fused: bool)

  const NoFlags := Flags(false, false, false)

  /** The flag that caps `kind`; dead phagocytosis has none. */
  function Raised(f: Flags, kind: InteractionKind): bool
  {
    match kind
    case PhagocytoseDead => false
    case PhagocytoseLive => f.phagocytosed
    case AttackCell => f.attacked
    case FuseCell => f.fused
  }

  /** The state of a scan: the interactions so far, in order, the flags and the draws taken. */
  datatype ScanState = ScanState(events: seq<Interaction>, flags: Flags, used: nat)

  /**
   * Visiting neighbour `t` with draws numbered from `pos`: a dead neighbour
   * takes one draw, for dead phagocytosis; a living one takes three, for
   * live phagocytosis, attack and fusion, whether or not their flags are set.
   */
  function VisitTarget(t: Target, rates: InteractionRates, dt: real, draw: nat -> real, pos: nat,
                       f: Flags): (v: ScanState)
    ensures v.used == DrawsFor(t)
  {
    if t.dead then
      var ingest := draw(pos) < rates.deadPhagocytosisRate * dt;
      ScanState(if ingest then [Interaction(PhagocytoseDead, t.id)] else [], f, 1)
    else
      var ingest := draw(pos) < rates.livePhagocytosisRate(t.typeName) * dt && !f.phagocytosed;
      var attack := draw(pos + 1) < rates.attackRate(t.typeName) * t.immunogenicity * dt && !f.attacked;
      var fuse := draw(pos + 2) < rates.fusionRate(t.typeName) * dt && !f.fused;
      ScanState((if ingest then [Interaction(PhagocytoseLive, t.id)] else [])
                + (if attack then [Interaction(AttackCell, t.id)] else [])
                + (if fuse then [Interaction(FuseCell, t.id)] else []),
                Flags(f.phagocytosed || ingest, f.attacked || attack, f.fused || fuse), 3)
  }

  function DrawsFor(t: Target): nat
  {
    if t.dead then 1 else 3
  }

  /** The draws the first `k` neighbours take: they do not depend on any draw or flag. */
  function DrawsNeeded(targets: seq<Target>, k: nat): nat
    requires k <= |targets|
  {
    if k == 0 then 0 else DrawsNeeded(targets, k - 1) + DrawsFor(targets[k - 1])
  }

  /** The index of the first neighbour whose total volume is below the cut-off, or the length of the list. */
  function Reach(targets: seq<Target>): (k: nat)
    ensures k <= |targets|
    ensures forall j :: 0 <= j < k ==> targets[j].totalVolume >= MinimumTargetVolume
    ensures k < |targets| ==> targets[k].totalVolume < MinimumTargetVolume
  {
    if targets == [] || targets[0].totalVolume < MinimumTargetVolume then 0 else 1 + Reach(targets[1..])
  }

  /** The scan state after visiting the first `k` neighbours in list order. */
  function ScanPrefix(targets: seq<Target>, k: nat, rates: InteractionRates, dt: real,
                      draw: nat -> real): (s: ScanState)
    requires k <= |targets|
  {
    if k == 0 then ScanState([], NoFlags, 0)
    else
      var s := ScanPrefix(targets, k - 1, rates, dt, draw);
      var v := VisitTarget(targets[k - 1], rates, dt, draw, s.used, s.flags);
      ScanState(s.events + v.events, v.flags, s.used + v.used)
  }

  /** The outcome of a call: the interactions in the order they happen and the number of draws taken. */
  datatype ScanResult = ScanResult(events: seq<Interaction>, used: nat)

  /**
   * The interactions of a cell with its neighbours: none for a dead cell;
   * otherwise those of the neighbours before the first too small one.
   */
  function Interactions(dead: bool, targets: seq<Target>, rates: InteractionRates, dt: real,
                        draw: nat -> real): (r: ScanResult)
    ensures dead ==> r == ScanResult([], 0)
  {
    if dead then ScanResult([], 0)
    else
      var s := ScanPrefix(targets, Reach(targets), rates, dt, draw);
      ScanResult(s.events, s.used)
  }

  /** The scan loop of a cell, with its three one-per-call flags. */
  method CellCellInteractions(dead: bool, targets: seq<Target>, rates: InteractionRates, dt: real,
                              draw: nat -> real) returns (events: seq<Interaction>, used: nat)
    ensures ScanResult(events, used) == Interactions(dead, targets, rates, dt, draw)
  {
    events, used := [], 0;
    if dead {
      return;
    }
    var phagocytosed, attacked, fused := false, false, false;
    var i := 0;
    while i < |targets|
      invariant 0 <= i <= Reach(targets)
      invariant ScanState(events, Flags(phagocytosed, attacked, fused), used)
             == ScanPrefix(targets, i, rates, dt, draw)
    {
      var t := targets[i];
      if t.totalVolume < MinimumTargetVolume {
        break;
      }
      var v := VisitNeighbour(t, rates, dt, draw, used, Flags(phagocytosed, attacked, fused));
      events := events + v.events;
      phagocytosed, attacked, fused := v.flags.phagocytosed, v.flags.attacked, v.flags.fused;
      used := used + v.used;
      i := i + 1;
    }
  }

  /**
   * The body of the scan loop for one neighbour `t`, with draws numbered from
   * `pos`, written as the statements the loop executes. Its specification is
   * `VisitTarget`, the definition the scan specification and the lemmas use.
   */
  method VisitNeighbour(t: Target, rates: InteractionRates, dt: real, draw: nat -> real, pos: nat, f: Flags)
    returns (v: ScanState)
    ensures v == VisitTarget(t, rates, dt, draw, pos, f)
  {
    var events: seq<Interaction> := [];
    var phagocytosed, attacked, fused := f.phagocytosed, f.attacked, f.fused;
    if t.dead {
      if draw(pos) < rates.deadPhagocytosisRate * dt {
        events := events + [Interaction(PhagocytoseDead, t.id)];
      }
      return ScanState(events, f, 1);
    }
    if draw(pos) < rates.livePhagocytosisRate(t.typeName) * dt && !phagocytosed {
      events := events + [Interaction(PhagocytoseLive, t.id)];
      phagocytosed := true;
    }
    var attack := rates.attackRate(t.typeName);
    if draw(pos + 1) < attack * t.immunogenicity * dt && !attacked {
      events := events + [Interaction(AttackCell, t.id)];
      attacked := true;
    }
    if draw(pos + 2) < rates.fusionRate(t.typeName) * dt && !fused {
      events := events + [Interaction(FuseCell, t.id)];
      fused := true;
    }
    v := ScanState(events, Flags(phagocytosed, attacked, fused), 3);
  }

  /** The number of interactions of kind `kind` in `events`. */
  function Count(events: seq<Interaction>, kind: InteractionKind): nat
  {
    if events == [] then 0 else (if events[0].kind == kind then 1 else 0) + Count(events[1..], kind)
  }

  lemma {:induction false} CountConcat(a: seq<Interaction>, b: seq<Interaction>, kind: InteractionKind)
    ensures Count(a + b, kind) == Count(a, kind) + Count(b, kind)
    decreases |a|
  {
    if a != [] {
      assert (a + b)[1..] == a[1..] + b;
      CountConcat(a[1..], b, kind);
      assert Count(a + b, kind) == (if a[0].kind == kind then 1 else 0) + Count(a[1..] + b, kind);
    } else {
      assert a + b == b;
    }
  }

  /** Visiting one neighbour produces an interaction of a capped kind exactly when it raises that kind's flag. */
  lemma VisitRaisesFlag(t: Target, rates: InteractionRates, dt: real, draw: nat -> real, pos: nat,
                        f: Flags, kind: InteractionKind)
    requires kind != PhagocytoseDead
    ensures var v := VisitTarget(t, rates, dt, draw, pos, f);
      && (Raised(f, kind) ==> Raised(v.flags, kind))
      && Count(v.events, kind) == (if Raised(v.flags, kind) && !Raised(f, kind) then 1 else 0)
  {
    if !t.dead {
      var ingest := draw(pos) < rates.livePhagocytosisRate(t.typeName) * dt && !f.phagocytosed;
      var attack := draw(pos + 1) < rates.attackRate(t.typeName) * t.immunogenicity * dt && !f.attacked;
      var fuse := draw(pos + 2) < rates.fusionRate(t.typeName) * dt && !f.fused;
      var v := VisitTarget(t, rates, dt, draw, pos, f);
      assert v.flags == Flags(f.phagocytosed || ingest, f.attacked || attack, f.fused || fuse);
      LiveEventsCount(t.id, ingest, attack, fuse, kind);
    }
  }

  /** The live-target events, one per raised decision, counted by kind. */
  lemma LiveEventsCount(id: nat, ingest: bool, attack: bool, fuse: bool, kind: InteractionKind)
    ensures Count((if ingest then [Interaction(PhagocytoseLive, id)] else [])
                  + (if attack then [Interaction(AttackCell, id)] else [])
                  + (if fuse then [Interaction(FuseCell, id)] else []), kind)
         == (if kind == PhagocytoseLive && ingest then 1 else 0)
          + (if kind == AttackCell && attack then 1 else 0)
          + (if kind == FuseCell && fuse then 1 else 0)
  {
    var a := if ingest then [Interaction(PhagocytoseLive, id)] else [];
    var b := if attack then [Interaction(AttackCell, id)] else [];
    var c := if fuse then [Interaction(FuseCell, id)] else [];
    CountConcat(a + b, c, kind);
    CountConcat(a, b, kind);
    CountSingleKind(a, PhagocytoseLive, kind);
    CountSingleKind(b, AttackCell, kind);
    CountSingleKind(c, FuseCell, kind);
  }

  lemma CountSingleKind(a: seq<Interaction>, k: InteractionKind, kind: InteractionKind)
    requires |a| <= 1 && forall e :: e in a ==> e.kind == k
    ensures Count(a, kind) == if kind == k && a != [] then 1 else 0
  {
    if a != [] {
      assert a[0] in a;
      assert a[1..] == [];
    }
  }

  /**
   * After any number of neighbours, live phagocytosis, attack and fusion
   * have each happened once if their flag is set and never otherwise.
   */
  lemma {:induction false} ScanCountsMatchFlags(targets: seq<Target>, k: nat, rates: InteractionRates, dt: real,
                                                draw: nat -> real, kind: InteractionKind)
    requires k <= |targets| && kind != PhagocytoseDead
    ensures var s := ScanPrefix(targets, k, rates, dt, draw);
      Count(s.events, kind) == if Raised(s.flags, kind) then 1 else 0
  {
    if k > 0 {
      var s := ScanPrefix(targets, k - 1, rates, dt, draw);
      var v := VisitTarget(targets[k - 1], rates, dt, draw, s.used, s.flags);
      ScanCountsMatchFlags(targets, k - 1, rates, dt, draw, kind);
      VisitRaisesFlag(targets[k - 1], rates, dt, draw, s.used, s.flags, kind);
      CountConcat(s.events, v.events, kind);
    }
  }

  /** A cell performs at most one live phagocytosis, one attack and one fusion per call. */
  lemma InteractionsAtMostOnce(dead: bool, targets: seq<Target>, rates: InteractionRates, dt: real,
                               draw: nat -> real)
    ensures var r := Interactions(dead, targets, rates, dt, draw);
      Count(r.events, PhagocytoseLive) <= 1 && Count(r.events, AttackCell) <= 1 && Count(r.events, FuseCell) <= 1
  {
    if !dead {
      var k := Reach(targets);
      ScanCountsMatchFlags(targets, k, rates, dt, draw, PhagocytoseLive);
      ScanCountsMatchFlags(targets, k, rates, dt, draw, AttackCell);
      ScanCountsMatchFlags(targets, k, rates, dt, draw, FuseCell);
    }
  }

  /**
   * Dead phagocytosis has no cap: when the first `k` neighbours are all dead
   * and all their draws succeed, every one of them is ingested, in order.
   */
  lemma {:induction false} DeadPhagocytosisIsUncapped(targets: seq<Target>, k: nat, rates: InteractionRates,
                                                      dt: real, draw: nat -> real)
    requires k <= |targets|
    requires forall j :: 0 <= j < k ==> targets[j].dead && draw(j) < rates.deadPhagocytosisRate * dt
    ensures ScanPrefix(targets, k, rates, dt, draw).events
         == seq(k, j requires 0 <= j < k => Interaction(PhagocytoseDead, targets[j].id))
  {
    if k > 0 {
      DeadPhagocytosisIsUncapped(targets, k - 1, rates, dt, draw);
      DeadDrawsOnePerTarget(targets, k - 1);
      ScanDrawsAreFixed(targets, k - 1, rates, dt, draw);
    }
  }

  lemma {:induction false} DeadDrawsOnePerTarget(targets: seq<Target>, k: nat)
    requires k <= |targets|
    requires forall j :: 0 <= j < k ==> targets[j].dead
    ensures DrawsNeeded(targets, k) == k
  {
    if k > 0 {
      DeadDrawsOnePerTarget(targets, k - 1);
    }
  }

  /** The scan state after `k` neighbours depends only on those `k` neighbours. */
  lemma {:induction false} ScanPrefixIgnoresRest(targets: seq<Target>, n: nat, k: nat, rates: InteractionRates,
                                                 dt: real, draw: nat -> real)
    requires k <= n <= |targets|
    ensures ScanPrefix(targets, k, rates, dt, draw) == ScanPrefix(targets[..n], k, rates, dt, draw)
  {
    if k > 0 {
      ScanPrefixIgnoresRest(targets, n, k - 1, rates, dt, draw);
      assert targets[..n][k - 1] == targets[k - 1];
    }
  }

  lemma ReachOfPrefix(targets: seq<Target>, j: nat)
    requires j < |targets| && targets[j].totalVolume < MinimumTargetVolume
    ensures Reach(targets) <= j && Reach(targets[..j]) == Reach(targets)
  {
  }

  /**
   * The draws a call takes are fixed by the neighbours alone: one per dead
   * neighbour and three per living one, whatever the flags and the draws.
   */
  lemma {:induction false} ScanDrawsAreFixed(targets: seq<Target>, k: nat, rates: InteractionRates, dt: real,
                                             draw: nat -> real)
    requires k <= |targets|
    ensures ScanPrefix(targets, k, rates, dt, draw).used == DrawsNeeded(targets, k)
  {
    if k > 0 {
      ScanDrawsAreFixed(targets, k - 1, rates, dt, draw);
    }
  }

  /** Nothing after the first neighbour below the volume cut-off has any effect. */
  lemma ScanStopsAtSmallTarget(dead: bool, targets: seq<Target>, j: nat, rates: InteractionRates, dt: real,
                               draw: nat -> real)
    requires j < |targets| && targets[j].totalVolume < MinimumTargetVolume
    ensures Interactions(dead, targets, rates, dt, draw) == Interactions(dead, targets[..j], rates, dt, draw)
  {
    ReachOfPrefix(targets, j);
    ScanPrefixIgnoresRest(targets, j, Reach(targets), rates, dt, draw);
  }

  /**
   * The transformation of a living cell: the definitions are tried in index
   * order and the first whose draw is at most `rates[i] * dt` is the one the
   * cell converts to; a dead cell is never transformed.
   */
  method CellTransformation(dead: bool, rates: seq<real>, dt: real, draw: nat -> real)
    returns (target: Option<nat>, used: nat)
    ensures dead ==> target == None && used == 0
    ensures target.Some? ==> !dead && target.value < |rates| && draw(target.value) <= rates[target.value] * dt
    ensures target.Some? ==> used == target.value + 1
    ensures !dead ==> used <= |rates| && forall j :: 0 <= j < used && (target.None? || j < target.value) ==> draw(j) > rates[j] * dt
    ensures !dead && target.None? ==> used == |rates|
  {
    target, used := None, 0;
    if dead {
      return;
    }
    var i := 0;
    while i < |rates|
      invariant 0 <= i <= |rates| && used == i
      invariant forall j :: 0 <= j < i ==> draw(j) > rates[j] * dt
    {
      used := used + 1;
      if draw(i) <= rates[i] * dt {
        target := Some(i);
        return;
      }
      i := i + 1;
    }
  }
}
