/**
 * Dynamic spring attachments: each step a cell may lose some of its springs
 * at random and, while under its cap, gain springs to neighbours that are
 * under theirs.
 */
module SpringModel {

  type CellId = nat

  /** The spring partners of `c` in `m`; a cell that was never attached has none. */
  function Partners(m: map<CellId, set<CellId>>, c: CellId): set<CellId>
  {
    if c in m then m[c] else {}
  }

  /** A spring from `a` to `b` is also a spring from `b` to `a`. */
  ghost predicate Symmetric(m: map<CellId, set<CellId>>)
  {
    forall a, b :: b in Partners(m, a) ==> a in Partners(m, b)
  }

  /** No spring between two cells other than `self` differs between `m` and `m'`. */
  ghost predicate OnlyTouches(m: map<CellId, set<CellId>>, m': map<CellId, set<CellId>>, self: CellId)
  {
    forall c, d :: c != self && d != self ==> (d in Partners(m', c) <==> d in Partners(m, c))
  }

  /** Joins `a` and `b` by a spring in both directions; joining an attached pair changes nothing. */
  function AttachCells(m: map<CellId, set<CellId>>, a: CellId, b: CellId): (r: map<CellId, set<CellId>>)
    ensures b in Partners(r, a)
    ensures b in Partners(m, a) ==> r == m
    ensures b !in Partners(m, a) ==> Partners(r, a) == Partners(m, a) + {b}
    ensures b !in Partners(m, a) ==> Partners(r, b) == Partners(m, b) + {a}
    ensures forall c :: c != a && c != b ==> Partners(r, c) == Partners(m, c)
  {
    if b in Partners(m, a) then m
    else
      var m1 := m[a := Partners(m, a) + {b}];
      m1[b := Partners(m1, b) + {a}]
  }

  /** Removes the spring between `a` and `b` in both directions. */
  function DetachCells(m: map<CellId, set<CellId>>, a: CellId, b: CellId): (r: map<CellId, set<CellId>>)
    ensures b !in Partners(r, a) && a !in Partners(r, b)
    ensures Partners(r, a) == Partners(m, a) - {b}
    ensures Partners(r, b) == Partners(m, b) - {a}
    ensures forall c :: c != a && c != b ==> Partners(r, c) == Partners(m, c)
  {
    var m1 := m[a := Partners(m, a) - {b}];
    m1[b := Partners(m1, b) - {a}]
  }

  lemma {:induction false} AttachKeepsSymmetry(m: map<CellId, set<CellId>>, a: CellId, b: CellId)
    requires Symmetric(m)
    ensures Symmetric(AttachCells(m, a, b))
    ensures OnlyTouches(m, AttachCells(m, a, b), a)
  {
    var r := AttachCells(m, a, b);
    forall x, y | y in Partners(r, x)
      ensures x in Partners(r, y)
    {
      if !(x == a && y == b) && !(x == b && y == a) {
        assert y in Partners(m, x);
      }
    }
  }

  lemma {:induction false} DetachKeepsSymmetry(m: map<CellId, set<CellId>>, a: CellId, b: CellId)
    requires Symmetric(m)
    ensures Symmetric(DetachCells(m, a, b))
    ensures OnlyTouches(m, DetachCells(m, a, b), a)
  {
    var r := DetachCells(m, a, b);
    forall x, y | y in Partners(r, x)
      ensures x in Partners(r, y)
    {
      assert y in Partners(m, x);
    }
  }

  /**
   * The partner map after the detachment pass has visited the first `k`
   * partners in `order`: the k-th visited partner is detached when
   * `draw(k) <= probability`.
   */
  function DetachPrefix(m: map<CellId, set<CellId>>, self: CellId, order: seq<CellId>, k: nat, probability: real,
                        draw: nat -> real): map<CellId, set<CellId>>
    requires k <= |order|
  {
    if k == 0 then m
    else
      var before := DetachPrefix(m, self, order, k - 1, probability, draw);
      if draw(k - 1) <= probability then DetachCells(before, self, order[k - 1]) else before
  }

  /** The partners among the first `k` in `order` whose draw succeeds: those the detachment pass removes. */
  function DetachedBy(order: seq<CellId>, k: nat, probability: real, draw: nat -> real): set<CellId>
    requires k <= |order|
  {
    if k == 0 then {}
    else DetachedBy(order, k - 1, probability, draw) + (if draw(k - 1) <= probability then {order[k - 1]} else {})
  }

  /** The detachment pass removes from `self` exactly the partners whose draw succeeds. */
  lemma {:induction false} DetachPrefixRemoves(m: map<CellId, set<CellId>>, self: CellId, order: seq<CellId>,
                                               k: nat, probability: real, draw: nat -> real)
    requires k <= |order|
    ensures Partners(DetachPrefix(m, self, order, k, probability, draw), self)
         == Partners(m, self) - DetachedBy(order, k, probability, draw)
  {
    if k > 0 {
      DetachPrefixRemoves(m, self, order, k - 1, probability, draw);
    }
  }

  /**
   * When no partner is listed twice, the k-th listed partner is among the
   * detached ones exactly when its own draw succeeds, and only listed
   * partners are detached.
   */
  lemma {:induction false} DetachedByExactly(order: seq<CellId>, k: nat, probability: real, draw: nat -> real)
    requires k <= |order|
    requires forall i, j :: 0 <= i < j < |order| ==> order[i] != order[j]
    ensures forall j :: 0 <= j < k ==>
              (order[j] in DetachedBy(order, k, probability, draw) <==> draw(j) <= probability)
    ensures forall j :: k <= j < |order| ==> order[j] !in DetachedBy(order, k, probability, draw)
    ensures forall c :: c in DetachedBy(order, k, probability, draw) ==> c in order
  {
    if k > 0 {
      DetachedByExactly(order, k - 1, probability, draw);
    }
  }

  /**
   * Whatever the draws, the detachment pass keeps the partner map symmetric
   * and changes only springs of `self`.
   */
  lemma {:induction false} DetachPrefixKeepsSymmetry(m: map<CellId, set<CellId>>, self: CellId,
                                                     order: seq<CellId>, k: nat, probability: real,
                                                     draw: nat -> real)
    requires k <= |order|
    requires Symmetric(m)
    ensures Symmetric(DetachPrefix(m, self, order, k, probability, draw))
    ensures OnlyTouches(m, DetachPrefix(m, self, order, k, probability, draw), self)
  {
    if k > 0 {
      DetachPrefixKeepsSymmetry(m, self, order, k - 1, probability, draw);
      DetachKeepsSymmetry(DetachPrefix(m, self, order, k - 1, probability, draw), self, order[k - 1]);
    }
  }

  /** The attachment probability of each neighbour: the attachment probability of the step scaled by affinity. */
  function AttachChance(probability: real, affinity: CellId -> real): CellId -> real
  {
    (n: CellId) => probability * affinity(n)
  }

  /** The state of the attachment pass: the partner map, the partners gained and the draws taken. */
  datatype AttachState = AttachState(m: map<CellId, set<CellId>>, attached: set<CellId>, tried: nat)

  /**
   * The attachment pass visiting neighbour `n`, with draws numbered from
   * `first`: nothing happens once `self` is at its cap, nor for a neighbour
   * at its own cap; otherwise the neighbour draws once and is attached when
   * the draw is at most the neighbour's attachment probability `chance(n)`.
   */
  function AttachVisit(s: AttachState, self: CellId, n: CellId, chance: CellId -> real, cap: CellId -> nat,
                       draw: nat -> real, first: nat): AttachState
  {
    if |Partners(s.m, self)| >= cap(self) || |Partners(s.m, n)| >= cap(n) then s
    else if draw(first + s.tried) <= chance(n) then
      AttachState(AttachCells(s.m, self, n),
                  if n in Partners(s.m, self) then s.attached else s.attached + {n},
                  s.tried + 1)
    else AttachState(s.m, s.attached, s.tried + 1)
  }

  /** The state of the attachment pass after the first `k` neighbours, in list order. */
  function AttachPrefix(m: map<CellId, set<CellId>>, self: CellId, neighbors: seq<CellId>, k: nat,
                        chance: CellId -> real, cap: CellId -> nat, draw: nat -> real, first: nat): AttachState
    requires k <= |neighbors|
  {
    if k == 0 then AttachState(m, {}, 0)
    else AttachVisit(AttachPrefix(m, self, neighbors, k - 1, chance, cap, draw, first),
                     self, neighbors[k - 1], chance, cap, draw, first)
  }

  /** Once `self` is at its cap, the remaining neighbours change nothing: the pass has stopped. */
  lemma {:induction false} AttachStopsAtCap(m: map<CellId, set<CellId>>, self: CellId, neighbors: seq<CellId>,
                                            k: nat, j: nat, chance: CellId -> real, cap: CellId -> nat,
                                            draw: nat -> real, first: nat)
    requires k <= j <= |neighbors|
    requires |Partners(AttachPrefix(m, self, neighbors, k, chance, cap, draw, first).m, self)|
             >= cap(self)
    ensures AttachPrefix(m, self, neighbors, j, chance, cap, draw, first)
         == AttachPrefix(m, self, neighbors, k, chance, cap, draw, first)
    decreases j
  {
    if j > k {
      AttachStopsAtCap(m, self, neighbors, k, j - 1, chance, cap, draw, first);
    }
  }

  /** One visit of the attachment pass either leaves the partner map alone or attaches `n` to `self`. */
  lemma {:induction false} AttachVisitMap(s: AttachState, self: CellId, n: CellId, chance: CellId -> real,
                                          cap: CellId -> nat, draw: nat -> real, first: nat)
    ensures var r := AttachVisit(s, self, n, chance, cap, draw, first);
      r.m == s.m || r.m == AttachCells(s.m, self, n)
  {
  }

  /**
   * One visit of the attachment pass adds to `self` exactly the partners it
   * records as gained, gains only `n`, and takes at most one draw.
   */
  lemma {:induction false} AttachVisitGains(s: AttachState, self: CellId, n: CellId, chance: CellId -> real,
                                            cap: CellId -> nat, draw: nat -> real, first: nat, kept: set<CellId>)
    requires Partners(s.m, self) == kept + s.attached && s.attached !! kept
    ensures var r := AttachVisit(s, self, n, chance, cap, draw, first);
      && Partners(r.m, self) == kept + r.attached && r.attached !! kept
      && r.attached <= s.attached + {n}
      && s.tried <= r.tried <= s.tried + 1
  {
    var r := AttachVisit(s, self, n, chance, cap, draw, first);
    if |Partners(s.m, self)| < cap(self) && |Partners(s.m, n)| < cap(n) && draw(first + s.tried) <= chance(n)
       && n !in Partners(s.m, self) {
      assert Partners(r.m, self) == Partners(s.m, self) + {n};
    }
  }

  /**
   * One visit of the attachment pass never takes `self` past its cap, nor a
   * gained partner past its own.
   */
  lemma {:induction false} AttachVisitWithinCaps(s: AttachState, self: CellId, n: CellId, chance: CellId -> real,
                                                 cap: CellId -> nat, draw: nat -> real, first: nat)
    requires |Partners(s.m, self)| <= cap(self)
    requires forall c :: c in s.attached && c != self ==> |Partners(s.m, c)| <= cap(c)
    ensures var r := AttachVisit(s, self, n, chance, cap, draw, first);
      && |Partners(r.m, self)| <= cap(self)
      && forall c :: c in r.attached && c != self ==> |Partners(r.m, c)| <= cap(c)
  {
    var r := AttachVisit(s, self, n, chance, cap, draw, first);
    if |Partners(s.m, self)| < cap(self) && |Partners(s.m, n)| < cap(n) && draw(first + s.tried) <= chance(n)
       && n !in Partners(s.m, self) {
      assert r.attached == s.attached + {n};
      assert Partners(r.m, n) == Partners(s.m, n) + {self};
    }
  }

  /**
   * Whatever the draws, the attachment pass keeps the partner map symmetric
   * and changes only springs of `self`.
   */
  lemma {:induction false} AttachPrefixKeepsSymmetry(m: map<CellId, set<CellId>>, self: CellId,
                                                     neighbors: seq<CellId>, k: nat, chance: CellId -> real,
                                                     cap: CellId -> nat, draw: nat -> real, first: nat)
    requires k <= |neighbors|
    requires Symmetric(m)
    ensures Symmetric(AttachPrefix(m, self, neighbors, k, chance, cap, draw, first).m)
    ensures OnlyTouches(m, AttachPrefix(m, self, neighbors, k, chance, cap, draw, first).m, self)
  {
    if k > 0 {
      AttachPrefixKeepsSymmetry(m, self, neighbors, k - 1, chance, cap, draw, first);
      var s := AttachPrefix(m, self, neighbors, k - 1, chance, cap, draw, first);
      AttachVisitMap(s, self, neighbors[k - 1], chance, cap, draw, first);
      AttachKeepsSymmetry(s.m, self, neighbors[k - 1]);
    }
  }

  /**
   * Whatever the draws, the attachment pass adds to `self` exactly the
   * gained partners, none of them an old partner and all of them neighbours,
   * and takes at most one draw per neighbour.
   */
  lemma {:induction false} AttachPrefixGains(m: map<CellId, set<CellId>>, self: CellId, neighbors: seq<CellId>,
                                             k: nat, chance: CellId -> real, cap: CellId -> nat,
                                             draw: nat -> real, first: nat)
    requires k <= |neighbors|
    ensures var r := AttachPrefix(m, self, neighbors, k, chance, cap, draw, first);
      && Partners(r.m, self) == Partners(m, self) + r.attached && r.attached !! Partners(m, self)
      && (forall n :: n in r.attached ==> n in neighbors)
      && r.tried <= k
  {
    if k > 0 {
      AttachPrefixGains(m, self, neighbors, k - 1, chance, cap, draw, first);
      var s := AttachPrefix(m, self, neighbors, k - 1, chance, cap, draw, first);
      AttachVisitGains(s, self, neighbors[k - 1], chance, cap, draw, first, Partners(m, self));
    }
  }

  /**
   * Whatever the draws, the attachment pass of `self`, started within its
   * cap, never takes `self` past its cap nor a gained partner past its own.
   */
  lemma {:induction false} AttachPrefixWithinCaps(m: map<CellId, set<CellId>>, self: CellId,
                                                  neighbors: seq<CellId>, k: nat, chance: CellId -> real,
                                                  cap: CellId -> nat, draw: nat -> real, first: nat)
    requires k <= |neighbors|
    requires |Partners(m, self)| <= cap(self)
    ensures var r := AttachPrefix(m, self, neighbors, k, chance, cap, draw, first);
      && |Partners(r.m, self)| <= cap(self)
      && forall c :: c in r.attached && c != self ==> |Partners(r.m, c)| <= cap(c)
  {
    if k > 0 {
      AttachPrefixWithinCaps(m, self, neighbors, k - 1, chance, cap, draw, first);
      var s := AttachPrefix(m, self, neighbors, k - 1, chance, cap, draw, first);
      AttachVisitWithinCaps(s, self, neighbors[k - 1], chance, cap, draw, first);
    }
  }

  /** Lists the elements of `s` once each, in some order. */
  method Enumerate(s: set<CellId>) returns (order: seq<CellId>)
    ensures |order| == |s|
    ensures forall c :: c in order <==> c in s
    ensures forall i, j :: 0 <= i < j < |order| ==> order[i] != order[j]
  {
    var rest := s;
    order := [];
    while rest != {}
      invariant rest <= s
      invariant forall c :: c in order ==> c in s && c !in rest
      invariant forall c :: c in s ==> c in order || c in rest
      invariant |order| + |rest| == |s|
      invariant forall i, j :: 0 <= i < j < |order| ==> order[i] != order[j]
      decreases |rest|
    {
      var c :| c in rest;
      order := order + [c];
      rest := rest - {c};
    }
  }

  /** The spring partners of every cell, updated in place. */
  class SpringNetwork {
    var partners: map<CellId, set<CellId>>

    /**
     * One dynamic-attachment step for `self`. First every current partner,
     * in the order `order`, draws once and is detached when its draw is at
     * most `detachmentRate * dt`. Then, unless `self` is at its cap, the
     * neighbours are tried in list order: a neighbour below its own cap
     * draws once and is attached when the draw is at most
     * `attachmentRate * dt * affinity(n)`; the pass ends as soon as `self`
     * reaches its cap. `draw(k)` is the k-th uniform draw; `used` draws are
     * consumed.
     */
    method DynamicSpringAttachments(self: CellId, neighbors: seq<CellId>, detachmentRate: real,
                                    attachmentRate: real, dt: real, cap: CellId -> nat,
                                    affinity: CellId -> real, draw: nat -> real)
      returns (order: seq<CellId>, detached: set<CellId>, attached: set<CellId>, used: nat)
      requires Symmetric(partners)
      modifies this
      ensures Symmetric(partners)
      ensures OnlyTouches(old(partners), partners, self)
      ensures |order| == |Partners(old(partners), self)|
      ensures forall c :: c in order <==> c in Partners(old(partners), self)
      ensures forall k :: 0 <= k < |order| ==> (order[k] in detached <==> draw(k) <= detachmentRate * dt)
      ensures detached <= Partners(old(partners), self)
      ensures Partners(partners, self) == (Partners(old(partners), self) - detached) + attached
      ensures forall n :: n in attached ==> n in neighbors
      ensures |Partners(old(partners), self) - detached| >= cap(self) ==> attached == {}
      ensures |Partners(old(partners), self) - detached| < cap(self) ==> |Partners(partners, self)| <= cap(self)
      ensures forall n :: n in attached && n != self ==> |Partners(partners, n)| <= cap(n)
      ensures |order| <= used <= |order| + |neighbors|
      ensures var afterDetach := DetachPrefix(old(partners), self, order, |order|, detachmentRate * dt, draw);
        if |Partners(afterDetach, self)| >= cap(self) then
          partners == afterDetach && attached == {} && used == |order|
        else
          var s := AttachPrefix(afterDetach, self, neighbors, |neighbors|,
                                AttachChance(attachmentRate * dt, affinity), cap, draw, |order|);
          partners == s.m && attached == s.attached && used == |order| + s.tried
    {
      order, detached := DetachPass(self, detachmentRate * dt, draw);
      used := |order|;
      attached := {};
      if |Partners(partners, self)| >= cap(self) {
        return;
      }
      var tried;
      attached, tried := AttachPass(self, neighbors, AttachChance(attachmentRate * dt, affinity), cap, draw, used);
      used := used + tried;
    }

    /**
     * The detachment pass: the partners of `self` at the start are visited
     * once each, in the order `order`, and the k-th, `order[k]`, is detached
     * when `draw(k) <= probability`.
     */
    method DetachPass(self: CellId, probability: real, draw: nat -> real)
      returns (order: seq<CellId>, detached: set<CellId>)
      requires Symmetric(partners)
      modifies this
      ensures Symmetric(partners)
      ensures OnlyTouches(old(partners), partners, self)
      ensures |order| == |Partners(old(partners), self)|
      ensures forall c :: c in order <==> c in Partners(old(partners), self)
      ensures forall k :: 0 <= k < |order| ==> (order[k] in detached <==> draw(k) <= probability)
      ensures detached <= Partners(old(partners), self)
      ensures Partners(partners, self) == Partners(old(partners), self) - detached
      ensures partners == DetachPrefix(old(partners), self, order, |order|, probability, draw)
    {
      var start := partners;
      order := Enumerate(Partners(start, self));
      var m := start;
      detached := {};
      var i := 0;
      while i < |order|
        invariant i <= |order|
        invariant m == DetachPrefix(start, self, order, i, probability, draw)
        invariant detached == DetachedBy(order, i, probability, draw)
        modifies {}
      {
        if draw(i) <= probability {
          m := DetachCells(m, self, order[i]);
          detached := detached + {order[i]};
        }
        i := i + 1;
      }
      DetachPrefixKeepsSymmetry(start, self, order, |order|, probability, draw);
      DetachPrefixRemoves(start, self, order, |order|, probability, draw);
      DetachedByExactly(order, |order|, probability, draw);
      partners := m;
    }

    /**
     * The attachment pass of `self`, which starts below its cap: each
     * neighbour below its own cap draws once (draws are numbered from
     * `first`) and is attached when the draw is at most its attachment
     * probability `chance(n)`; the pass stops once `self` reaches its cap.
     * `attached` are the partners gained, `tried` the draws consumed.
     */
    method AttachPass(self: CellId, neighbors: seq<CellId>, chance: CellId -> real, cap: CellId -> nat,
                      draw: nat -> real, first: nat)
      returns (attached: set<CellId>, tried: nat)
      requires Symmetric(partners)
      requires |Partners(partners, self)| < cap(self)
      modifies this
      ensures Symmetric(partners)
      ensures OnlyTouches(old(partners), partners, self)
      ensures Partners(partners, self) == Partners(old(partners), self) + attached
      ensures attached !! Partners(old(partners), self)
      ensures forall n :: n in attached ==> n in neighbors
      ensures |Partners(partners, self)| <= cap(self)
      ensures forall n :: n in attached && n != self ==> |Partners(partners, n)| <= cap(n)
      ensures tried <= |neighbors|
      ensures AttachState(partners, attached, tried)
           == AttachPrefix(old(partners), self, neighbors, |neighbors|, chance, cap, draw, first)
    {
      ghost var start := partners;
      attached, tried := {}, 0;
      var i := 0;
      while i < |neighbors|
        invariant i <= |neighbors|
        invariant |Partners(partners, self)| < cap(self)
        invariant AttachState(partners, attached, tried)
               == AttachPrefix(start, self, neighbors, i, chance, cap, draw, first)
      {
        var visited := AttachVisit(AttachState(partners, attached, tried), self, neighbors[i], chance, cap, draw,
                                   first);
        partners, attached, tried := visited.m, visited.attached, visited.tried;
        if |Partners(partners, self)| >= cap(self) {
          AttachStopsAtCap(start, self, neighbors, i + 1, |neighbors|, chance, cap, draw, first);
          break;
        }
        i := i + 1;
      }
      AttachPrefixKeepsSymmetry(start, self, neighbors, |neighbors|, chance, cap, draw, first);
      AttachPrefixGains(start, self, neighbors, |neighbors|, chance, cap, draw, first);
      AttachPrefixWithinCaps(start, self, neighbors, |neighbors|, chance, cap, draw, first);
    }
  }
}
