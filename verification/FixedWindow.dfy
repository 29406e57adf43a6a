/** Fixed-window counters over any traffic: how many requests a limit lets through in a stretch of time. */
module FixedWindow {
  import opened Common
  import opened Ephemeral

  /** A store call works, never arrives, or works while its answer is lost. */
  datatype Fault = Healthy | Down | AnswerLost

  /** One store operation: a counter's increment, or anything at all done to some key. */
  datatype Event =
    | Bump(key: string, ttl: nat, at: nat, fault: Fault)
    | Other(key: string, item: Option<Item>)

  function Served(items: Items, e: Event): Items {
    match e
    case Bump(key, ttl, at, fault) => if fault.Down? then items else Incremented(items, key, ttl, at)
    case Other(key, None) => items - {key}
    case Other(key, Some(item)) => items[key := item]
  }

  function Store(items: Items, events: seq<Event>): Items {
    if events == [] then items else Served(Store(items, events[..|events| - 1]), events[|events| - 1])
  }

  lemma StoreStep(items: Items, events: seq<Event>, i: nat)
    requires i < |events|
    ensures Store(items, events[..i + 1]) == Served(Store(items, events[..i]), events[i])
  {
    assert events[..i + 1][..i] == events[..i];
  }

  /** The count request `i` is told, if it is told one. */
  function Answer(items: Items, events: seq<Event>, i: nat): Option<nat>
    requires i < |events| && events[i].Bump?
  {
    var after := Store(items, events[..i + 1]);
    if events[i].fault.Healthy? && events[i].key in after && after[events[i].key].value.Count?
    then Some(after[events[i].key].value.n)
    else None
  }

  /** Requests on `key` in a stretch of time that a limit of `max` lets through, failing closed. */
  function Admitted(items: Items, events: seq<Event>, key: string, max: nat, from: nat, to: nat): set<nat> {
    set i: nat | i < |events| && events[i].Bump? && events[i].key == key && from <= events[i].at <= to
                 && Answer(items, events, i).Some? && Answer(items, events, i).value <= max
  }

  /** The same, failing open: a request that gets no answer passes. */
  function AdmittedOpen(items: Items, events: seq<Event>, key: string, max: nat, from: nat, to: nat): set<nat> {
    set i: nat | i < |events| && events[i].Bump? && events[i].key == key && from <= events[i].at <= to
                 && (Answer(items, events, i).Some? ==> Answer(items, events, i).value <= max)
  }

  function Unanswered(items: Items, events: seq<Event>, key: string, from: nat, to: nat): set<nat> {
    set i: nat | i < |events| && events[i].Bump? && events[i].key == key && from <= events[i].at <= to
                 && Answer(items, events, i).None?
  }

  /** Only bumps of one ttl touch the key, on a clock that does not go back. */
  ghost predicate Counted(events: seq<Event>, key: string, ttl: nat) {
    && (forall i :: 0 <= i < |events| && events[i].key == key ==> events[i].Bump? && events[i].ttl == ttl)
    && (forall i, j :: 0 <= i < j < |events| && events[i].Bump? && events[j].Bump?
                       && events[i].key == key && events[j].key == key ==>
          events[i].at <= events[j].at)
  }

  /** The key is absent, or holds a counter that earlier bumps left. */
  ghost predicate StartsAt(items: Items, events: seq<Event>, key: string, ttl: nat) {
    key in items ==>
      && items[key].value.Count? && items[key].value.n >= 1
      && forall i :: 0 <= i < |events| && events[i].Bump? && events[i].key == key ==>
          items[key].expiresAt <= events[i].at + ttl
  }

  // -------------------------------------------------------- a counter's lives

  /** A bump that reached the store: when, and the counter it left. */
  datatype Hit = Hit(at: nat, expiresAt: nat, count: nat)

  ghost predicate HitOk(h: Hit, ttl: nat) {
    && h.at <= h.expiresAt <= h.at + ttl && (ttl > 0 ==> h.at < h.expiresAt)
    && h.count >= 1 && (h.count == 1 ==> h.expiresAt == h.at + ttl)
  }

  /** Two hits in turn: within one life the count grows; a new life starts after the old has ended. */
  ghost predicate InTurn(a: Hit, b: Hit, ttl: nat) {
    (a.expiresAt == b.expiresAt && a.count < b.count) || (b.at >= a.expiresAt && b.expiresAt >= a.expiresAt + ttl)
  }

  ghost predicate Orderly(hits: map<nat, Hit>, ttl: nat) {
    && (forall i :: i in hits ==> HitOk(hits[i], ttl))
    && forall i, j :: i in hits && j in hits && i < j ==> InTurn(hits[i], hits[j], ttl)
  }

  lemma MaxOf(s: set<nat>) returns (m: nat)
    requires s != {}
    ensures m in s && forall i :: i in s ==> i <= m
    decreases s
  {
    var pick :| pick in s;
    m := pick;
    if s != {pick} {
      var rest := MaxOf(s - {pick});
      assert forall i :: i in s ==> i == pick || i in s - {pick};
      m := if rest > pick then rest else pick;
    }
  }

  ghost predicate OneLife(hits: map<nat, Hit>, s: set<nat>) {
    && s <= hits.Keys
    && forall i, j :: i in s && j in s ==> hits[i].expiresAt == hits[j].expiresAt
  }

  /** Hits of one life are counted apart. */
  lemma {:induction false} Spread(hits: map<nat, Hit>, ttl: nat, s: set<nat>) returns (lo: nat, hi: nat)
    requires Orderly(hits, ttl) && ttl > 0 && OneLife(hits, s) && s != {}
    ensures lo in s && hi in s && hits[hi].count >= hits[lo].count + |s| - 1
    decreases |s|
  {
    var m := MaxOf(s);
    if s == {m} {
      return m, m;
    }
    lo, hi := Spread(hits, ttl, s - {m});
    assert InTurn(hits[hi], hits[m], ttl);
    hi := m;
  }

  /** At most `max` requests pass in one life of the counter. */
  lemma LifeBound(hits: map<nat, Hit>, ttl: nat, s: set<nat>, max: nat)
    requires Orderly(hits, ttl) && ttl > 0 && OneLife(hits, s)
    requires forall i :: i in s ==> hits[i].count <= max
    ensures |s| <= max
    ensures |s| == max > 0 ==> exists i :: i in s && hits[i].expiresAt == hits[i].at + ttl
  {
    if s != {} {
      var lo, hi := Spread(hits, ttl, s);
      assert HitOk(hits[lo], ttl);
    }
  }

  /** A stretch no longer than `ttl` meets two lives at most. */
  lemma TwoLives(hits: map<nat, Hit>, ttl: nat, s: set<nat>, from: nat) returns (first: set<nat>, second: set<nat>)
    requires Orderly(hits, ttl) && ttl > 0 && s <= hits.Keys
    requires forall i :: i in s ==> from <= hits[i].at <= from + ttl
    ensures s == first + second && first !! second && OneLife(hits, first) && OneLife(hits, second)
    ensures forall i, j :: i in first && j in second ==> hits[j].at >= hits[i].expiresAt
  {
    if s == {} {
      return {}, {};
    }
    var e := Earliest(hits, s);
    first := set i | i in s && hits[i].expiresAt == hits[e].expiresAt;
    second := s - first;
    forall i, j | i in second && j in second ensures hits[i].expiresAt == hits[j].expiresAt {
      SameSecondLife(hits, ttl, from, e, i, j);
      SameSecondLife(hits, ttl, from, e, j, i);
    }
    forall i, j | i in first && j in second ensures hits[j].at >= hits[i].expiresAt {
      assert InTurn(hits[e], hits[j], ttl);
    }
  }

  lemma Earliest(hits: map<nat, Hit>, s: set<nat>) returns (e: nat)
    requires s != {} && s <= hits.Keys
    ensures e in s && forall i :: i in s ==> e <= i
    decreases s
  {
    var pick :| pick in s;
    e := pick;
    if s != {pick} {
      var rest := Earliest(hits, s - {pick});
      assert forall i :: i in s ==> i == pick || i in s - {pick};
      e := if rest < pick then rest else pick;
    }
  }

  lemma SameSecondLife(hits: map<nat, Hit>, ttl: nat, from: nat, e: nat, i: nat, j: nat)
    requires Orderly(hits, ttl) && ttl > 0 && {e, i, j} <= hits.Keys && e < i && e < j
    requires hits[i].expiresAt != hits[e].expiresAt && hits[e].at >= from && hits[j].at <= from + ttl
    ensures i < j ==> hits[i].expiresAt == hits[j].expiresAt
  {
    if i < j {
      assert InTurn(hits[e], hits[i], ttl) && InTurn(hits[i], hits[j], ttl) && HitOk(hits[e], ttl);
    }
  }

  lemma StretchBound(hits: map<nat, Hit>, ttl: nat, s: set<nat>, max: nat, from: nat, to: nat)
    requires Orderly(hits, ttl) && ttl > 0 && s <= hits.Keys && to <= from + ttl
    requires forall i :: i in s ==> from <= hits[i].at <= to && hits[i].count <= max
    ensures |s| <= 2 * max
    ensures to < from + ttl && max > 0 ==> |s| <= 2 * max - 1
  {
    var first, second := TwoLives(hits, ttl, s, from);
    LifeBound(hits, ttl, first, max);
    LifeBound(hits, ttl, second, max);
    assert |s| == |first| + |second|;
    if |first| == max > 0 {
      forall j | j in second ensures hits[j].at >= from + ttl {
        AfterAFullLife(hits, ttl, first, second, max, from, j);
      }
    }
  }

  /** A life that let all its `max` through within a stretch leaves the next life outside it. */
  lemma AfterAFullLife(hits: map<nat, Hit>, ttl: nat, first: set<nat>, second: set<nat>, max: nat, from: nat, j: nat)
    requires Orderly(hits, ttl) && ttl > 0 && OneLife(hits, first) && j in second && j in hits && |first| == max > 0
    requires forall i :: i in first ==> hits[i].at >= from && hits[i].count <= max && hits[j].at >= hits[i].expiresAt
    ensures hits[j].at >= from + ttl
  {
    LifeBound(hits, ttl, first, max);
    var i :| i in first && hits[i].expiresAt == hits[i].at + ttl;
  }

  // -------------------------------------------------- hits come from the store

  predicate Reaches(e: Event, key: string) {
    e.Bump? && e.key == key && !e.fault.Down?
  }

  predicate HoldsCounter(items: Items, key: string) {
    key in items && items[key].value.Count?
  }

  /** The counter as hit `i` left it. */
  function HitAt(items: Items, events: seq<Event>, key: string, i: nat): Hit
    requires i < |events| && Reaches(events[i], key)
  {
    var after := Store(items, events[..i + 1]);
    if HoldsCounter(after, key) then Hit(events[i].at, after[key].expiresAt, after[key].value.n) else Hit(0, 0, 0)
  }

  /** What holds of the key's counter whenever it is there. */
  ghost predicate CounterOk(items: Items, events: seq<Event>, key: string, ttl: nat, done: nat) {
    key in items ==>
      && items[key].value.Count? && items[key].value.n >= 1
      && forall i :: done <= i < |events| && Reaches(events[i], key) ==> items[key].expiresAt <= events[i].at + ttl
  }

  lemma {:induction false} CounterStaysOk(items: Items, events: seq<Event>, key: string, ttl: nat, i: nat)
    requires Counted(events, key, ttl) && StartsAt(items, events, key, ttl) && i <= |events|
    ensures CounterOk(Store(items, events[..i]), events, key, ttl, i)
  {
    if i > 0 {
      CounterStaysOk(items, events, key, ttl, i - 1);
      StoreStep(items, events, i - 1);
      var before := Store(items, events[..i - 1]);
      if Reaches(events[i - 1], key) && !Live(before, key, events[i - 1].at) {
        forall j | i <= j < |events| && Reaches(events[j], key)
          ensures events[i - 1].at + ttl <= events[j].at + ttl
        {
        }
      }
    }
  }

  lemma HitIsOk(items: Items, events: seq<Event>, key: string, ttl: nat, i: nat)
    requires Counted(events, key, ttl) && StartsAt(items, events, key, ttl) && i < |events| && Reaches(events[i], key)
    ensures HoldsCounter(Store(items, events[..i + 1]), key)
    ensures HitOk(HitAt(items, events, key, i), ttl)
  {
    CounterStaysOk(items, events, key, ttl, i);
    StoreStep(items, events, i);
  }

  /** The counter either lives on, counting up, or has been replaced by later lives. */
  ghost predicate Follows(a: Item, items: Items, key: string, ttl: nat)
    requires a.value.Count?
  {
    && HoldsCounter(items, key)
    && ((a.expiresAt == items[key].expiresAt && a.value.n <= items[key].value.n)
        || items[key].expiresAt >= a.expiresAt + ttl)
  }

  lemma FollowsStep(a: Item, items: Items, e: Event, key: string, ttl: nat)
    requires a.value.Count? && Follows(a, items, key, ttl)
    requires e.key == key ==> e.Bump? && e.ttl == ttl
    ensures Follows(a, Served(items, e), key, ttl)
    ensures Reaches(e, key) ==>
              var b := Served(items, e)[key];
              (a.expiresAt == b.expiresAt && a.value.n < b.value.n) || b.expiresAt >= a.expiresAt + ttl
  {
  }

  lemma {:induction false} CounterAfter(items: Items, events: seq<Event>, key: string, ttl: nat, i: nat, j: nat)
    requires forall x :: 0 <= x < |events| && events[x].key == key ==> events[x].Bump? && events[x].ttl == ttl
    requires i < j <= |events| && Reaches(events[i], key) && HoldsCounter(Store(items, events[..i + 1]), key)
    ensures Follows(Store(items, events[..i + 1])[key], Store(items, events[..j]), key, ttl)
    decreases j
  {
    if j > i + 1 {
      CounterAfter(items, events, key, ttl, i, j - 1);
      assert Store(items, events[..j]) == Served(Store(items, events[..j - 1]), events[j - 1]) by {
        StoreStep(items, events, j - 1);
      }
      FollowsStep(Store(items, events[..i + 1])[key], Store(items, events[..j - 1]), events[j - 1], key, ttl);
    }
  }

  lemma HitsInTurn(items: Items, events: seq<Event>, key: string, ttl: nat, i: nat, j: nat)
    requires Counted(events, key, ttl) && StartsAt(items, events, key, ttl)
    requires i < j < |events| && Reaches(events[i], key) && Reaches(events[j], key)
    ensures InTurn(HitAt(items, events, key, i), HitAt(items, events, key, j), ttl)
  {
    HitIsOk(items, events, key, ttl, i);
    HitIsOk(items, events, key, ttl, j);
    CounterAfter(items, events, key, ttl, i, j);
    StoreStep(items, events, j);
    FollowsStep(Store(items, events[..i + 1])[key], Store(items, events[..j]), events[j], key, ttl);
  }

  lemma HitsAreOrderly(items: Items, events: seq<Event>, key: string, ttl: nat) returns (hits: map<nat, Hit>)
    requires Counted(events, key, ttl) && StartsAt(items, events, key, ttl)
    ensures Orderly(hits, ttl)
    ensures forall i: nat :: i in hits <==> i < |events| && Reaches(events[i], key)
    ensures forall i :: i in hits ==> hits[i] == HitAt(items, events, key, i)
  {
    hits := map i: nat | i < |events| && Reaches(events[i], key) :: HitAt(items, events, key, i);
    forall i | i in hits ensures HitOk(hits[i], ttl) {
      HitIsOk(items, events, key, ttl, i);
    }
    forall i, j | i in hits && j in hits && i < j ensures InTurn(hits[i], hits[j], ttl) {
      HitsInTurn(items, events, key, ttl, i, j);
    }
  }

  // ------------------------------------------------------------------ bounds

  /**
   * Whatever else happens to the store and however its calls fail, a limit of `max` per `ttl` that
   * fails closed lets at most `2 * max` requests through in any closed stretch of length `ttl`,
   * and one fewer if the stretch is half open.
   */
  lemma WindowBound(items: Items, events: seq<Event>, key: string, ttl: nat, max: nat, from: nat, to: nat)
    requires Counted(events, key, ttl) && StartsAt(items, events, key, ttl) && ttl > 0 && to <= from + ttl
    ensures |Admitted(items, events, key, max, from, to)| <= 2 * max
    ensures to < from + ttl && max > 0 ==> |Admitted(items, events, key, max, from, to)| <= 2 * max - 1
  {
    var hits := HitsAreOrderly(items, events, key, ttl);
    StretchBound(hits, ttl, Admitted(items, events, key, max, from, to), max, from, to);
  }

  /** Within one life of the counter at most `max` pass: those told the same deadline. */
  lemma LifetimeBound(items: Items, events: seq<Event>, key: string, ttl: nat, max: nat, s: set<nat>, deadline: nat)
    requires Counted(events, key, ttl) && StartsAt(items, events, key, ttl) && ttl > 0
    requires forall i :: i in s ==>
               && i < |events| && Reaches(events[i], key)
               && HoldsCounter(Store(items, events[..i + 1]), key)
               && Store(items, events[..i + 1])[key].expiresAt == deadline
               && Store(items, events[..i + 1])[key].value.n <= max
    ensures |s| <= max
  {
    var hits := HitsAreOrderly(items, events, key, ttl);
    LifeBound(hits, ttl, s, max);
  }

  /** Failing open adds at most the requests that got no answer. */
  lemma OpenWindowBound(items: Items, events: seq<Event>, key: string, ttl: nat, max: nat, from: nat, to: nat)
    requires Counted(events, key, ttl) && StartsAt(items, events, key, ttl) && ttl > 0 && to <= from + ttl
    ensures |AdmittedOpen(items, events, key, max, from, to)| <= 2 * max + |Unanswered(items, events, key, from, to)|
  {
    WindowBound(items, events, key, ttl, max, from, to);
    var closed := Admitted(items, events, key, max, from, to);
    var lost := Unanswered(items, events, key, from, to);
    assert AdmittedOpen(items, events, key, max, from, to) == closed + lost;
    assert closed !! lost;
    assert |closed + lost| == |closed| + |lost|;
  }

  // --------------------------------------------------------------- tightness

  function Burst(key: string, ttl: nat, at: nat, n: nat): seq<Event> {
    seq(n, _ => Bump(key, ttl, at, Healthy))
  }

  /** `max` requests as a life begins and `max` as the next one does. */
  function TwoBursts(key: string, ttl: nat, max: nat): seq<Event> {
    Burst(key, ttl, 0, max) + Burst(key, ttl, ttl, max)
  }

  lemma {:induction false} BurstCounts(key: string, ttl: nat, max: nat, i: nat)
    requires ttl > 0 && 0 < i <= 2 * max
    ensures Store(map[], TwoBursts(key, ttl, max)[..i])
            == map[key := if i <= max then Item(Count(i), ttl) else Item(Count(i - max), 2 * ttl)]
  {
    var events := TwoBursts(key, ttl, max);
    StoreStep(map[], events, i - 1);
    if i > 1 {
      BurstCounts(key, ttl, max, i - 1);
    } else {
      assert events[..0] == [];
    }
  }

  function UpTo(n: nat): (s: set<nat>)
    ensures |s| == n && forall i: nat :: i in s <==> i < n
  {
    if n == 0 then {} else UpTo(n - 1) + {n - 1}
  }

  lemma BurstIsAdmitted(key: string, ttl: nat, max: nat, i: nat)
    requires ttl > 0 && i < 2 * max
    ensures i in Admitted(map[], TwoBursts(key, ttl, max), key, max, 0, ttl)
  {
    BurstCounts(key, ttl, max, i + 1);
  }

  lemma AdmittedIsBounded(items: Items, events: seq<Event>, key: string, max: nat, from: nat, to: nat)
    ensures Admitted(items, events, key, max, from, to) <= UpTo(|events|)
  {
  }

  lemma BurstsAreCounted(key: string, ttl: nat, max: nat)
    ensures Counted(TwoBursts(key, ttl, max), key, ttl) && StartsAt(map[], TwoBursts(key, ttl, max), key, ttl)
  {
  }

  /** The bound is reached, for every limit and every length. */
  lemma WindowBoundIsTight(key: string, ttl: nat, max: nat)
    requires ttl > 0
    ensures Counted(TwoBursts(key, ttl, max), key, ttl) && StartsAt(map[], TwoBursts(key, ttl, max), key, ttl)
    ensures |Admitted(map[], TwoBursts(key, ttl, max), key, max, 0, ttl)| == 2 * max
  {
    BurstsAreCounted(key, ttl, max);
    var admitted := Admitted(map[], TwoBursts(key, ttl, max), key, max, 0, ttl);
    assert UpTo(2 * max) <= admitted by {
      forall i | i in UpTo(2 * max) ensures i in admitted {
        BurstIsAdmitted(key, ttl, max, i);
      }
    }
    AdmittedIsBounded(map[], TwoBursts(key, ttl, max), key, max, 0, ttl);
    assert admitted == UpTo(2 * max);
  }

  // ------------------------------------------------- what a stretch can still get

  /** The key holds a counter or nothing; a counter there was set no later than `from`. */
  predicate CounterBy(items: Items, key: string, ttl: nat, from: nat) {
    key in items ==> items[key].value.Count? && items[key].value.n >= 1 && items[key].expiresAt <= from + ttl
  }

  /** Requests on `key` come at `from` or later. */
  ghost predicate NotBefore(events: seq<Event>, key: string, from: nat) {
    forall i :: 0 <= i < |events| && events[i].Bump? && events[i].key == key ==> from <= events[i].at
  }

  /** What the counter found at `from` still lets through. */
  function LeftOver(items: Items, key: string, max: nat): nat
    requires HoldsCounter(items, key)
  {
    if items[key].value.n < max then max - items[key].value.n else 0
  }

  /** The most a limit can let through in the half-open stretch of one ttl from `from` on. */
  function Allowance(items: Items, key: string, ttl: nat, max: nat, from: nat): nat
    requires CounterBy(items, key, ttl, from)
  {
    if !Live(items, key, from) then max
    else LeftOver(items, key, max) + if items[key].expiresAt < from + ttl then max else 0
  }

  /** The counter is the one found at the start, or of a life that began after it. */
  ghost predicate Stems(items: Items, cur: Items, key: string, ttl: nat, from: nat) {
    key in cur ==>
      && cur[key].value.Count?
      && ((key in items && items[key].value.Count? && cur[key].expiresAt == items[key].expiresAt
           && cur[key].value.n >= items[key].value.n)
          || Newborn(items, key, ttl, from, cur[key].expiresAt))
  }

  predicate Newborn(items: Items, key: string, ttl: nat, from: nat, expiresAt: nat) {
    from + ttl <= expiresAt && (Live(items, key, from) ==> items[key].expiresAt + ttl <= expiresAt)
  }

  lemma StemsStep(items: Items, cur: Items, e: Event, key: string, ttl: nat, from: nat)
    requires CounterBy(items, key, ttl, from) && Stems(items, cur, key, ttl, from) && (key in items ==> key in cur)
    requires e.key == key ==> e.Bump? && e.ttl == ttl && from <= e.at
    ensures Stems(items, Served(cur, e), key, ttl, from) && (key in items ==> key in Served(cur, e))
    ensures Reaches(e, key) ==>
              && HoldsCounter(Served(cur, e), key)
              && ((Live(items, key, from) && Served(cur, e)[key].expiresAt == items[key].expiresAt
                   && Served(cur, e)[key].value.n > items[key].value.n)
                  || Newborn(items, key, ttl, from, Served(cur, e)[key].expiresAt))
  {
  }

  lemma {:induction false} StoreStems(items: Items, events: seq<Event>, key: string, ttl: nat, from: nat, i: nat)
    requires CounterBy(items, key, ttl, from) && Counted(events, key, ttl) && NotBefore(events, key, from)
             && i <= |events|
    ensures Stems(items, Store(items, events[..i]), key, ttl, from)
    ensures key in items ==> key in Store(items, events[..i])
  {
    if i > 0 {
      StoreStems(items, events, key, ttl, from, i - 1);
      StoreStep(items, events, i - 1);
      StemsStep(items, Store(items, events[..i - 1]), events[i - 1], key, ttl, from);
    }
  }

  /** A hit counts on the counter found at the start, or on one of a later life. */
  ghost predicate CountsOn(items: Items, h: Hit, key: string, ttl: nat, from: nat) {
    || (Live(items, key, from) && items[key].value.Count? && h.expiresAt == items[key].expiresAt
        && h.count > items[key].value.n)
    || Newborn(items, key, ttl, from, h.expiresAt)
  }

  lemma HitStems(items: Items, events: seq<Event>, key: string, ttl: nat, from: nat, i: nat)
    requires CounterBy(items, key, ttl, from) && Counted(events, key, ttl) && NotBefore(events, key, from)
    requires i < |events| && Reaches(events[i], key)
    ensures CountsOn(items, HitAt(items, events, key, i), key, ttl, from)
  {
    StoreStems(items, events, key, ttl, from, i);
    StoreStep(items, events, i);
    StemsStep(items, Store(items, events[..i]), events[i], key, ttl, from);
  }

  /** Hits of one life that count above `n`, up to `max`. */
  lemma CountedAbove(hits: map<nat, Hit>, ttl: nat, s: set<nat>, n: nat, max: nat)
    requires Orderly(hits, ttl) && ttl > 0 && OneLife(hits, s)
    requires forall i :: i in s ==> n < hits[i].count <= max
    ensures |s| <= if n < max then max - n else 0
  {
    if s != {} {
      var lo, hi := Spread(hits, ttl, s);
    }
  }

  lemma NewbornsShareALife(items: Items, hits: map<nat, Hit>, key: string, ttl: nat, s: set<nat>, from: nat)
    requires Orderly(hits, ttl) && s <= hits.Keys
    requires forall i :: i in s ==> hits[i].at < from + ttl && Newborn(items, key, ttl, from, hits[i].expiresAt)
    ensures OneLife(hits, s)
  {
    forall i, j | i in s && j in s ensures hits[i].expiresAt == hits[j].expiresAt {
      if i < j {
        assert InTurn(hits[i], hits[j], ttl);
      } else if j < i {
        assert InTurn(hits[j], hits[i], ttl);
      }
    }
  }

  lemma AllowanceOfHits(items: Items, hits: map<nat, Hit>, key: string, ttl: nat, max: nat, s: set<nat>, from: nat)
    requires CounterBy(items, key, ttl, from) && Orderly(hits, ttl) && ttl > 0 && s <= hits.Keys
    requires forall i :: i in s ==>
               hits[i].at < from + ttl && hits[i].count <= max && CountsOn(items, hits[i], key, ttl, from)
    ensures |s| <= Allowance(items, key, ttl, max, from)
  {
    var newborn := set i | i in s && Newborn(items, key, ttl, from, hits[i].expiresAt);
    var others := s - newborn;
    assert |s| == |newborn| + |others|;
    NewbornsShareALife(items, hits, key, ttl, newborn, from);
    LifeBound(hits, ttl, newborn, max);
    if Live(items, key, from) {
      CountedAbove(hits, ttl, others, items[key].value.n, max);
      forall i | i in newborn ensures items[key].expiresAt < from + ttl {
        assert HitOk(hits[i], ttl);
      }
    } else {
      assert others == {};
    }
  }

  /**
   * Whatever comes from `from` on, a half-open stretch of one ttl lets through no more than the counter
   * found there allows.
   */
  lemma StretchKeepsAllowance(items: Items, events: seq<Event>, key: string, ttl: nat, max: nat, from: nat)
    requires CounterBy(items, key, ttl, from) && ttl > 0 && Counted(events, key, ttl) && NotBefore(events, key, from)
    ensures |Admitted(items, events, key, max, from, from + ttl - 1)| <= Allowance(items, key, ttl, max, from)
  {
    var hits := HitsAreOrderly(items, events, key, ttl);
    var admitted := Admitted(items, events, key, max, from, from + ttl - 1);
    forall i | i in admitted ensures CountsOn(items, hits[i], key, ttl, from) {
      HitStems(items, events, key, ttl, from, i);
    }
    AllowanceOfHits(items, hits, key, ttl, max, admitted, from);
  }

  /** All that is left over at once, and a whole life's worth as soon as the counter expires. */
  function Worst(items: Items, key: string, ttl: nat, max: nat, from: nat): seq<Event>
    requires CounterBy(items, key, ttl, from)
  {
    if !Live(items, key, from) then Burst(key, ttl, from, max)
    else Burst(key, ttl, from, LeftOver(items, key, max))
         + Burst(key, ttl, items[key].expiresAt, if items[key].expiresAt < from + ttl then max else 0)
  }

  function WorstItem(items: Items, key: string, ttl: nat, max: nat, from: nat, i: nat): Item
    requires CounterBy(items, key, ttl, from)
  {
    if !Live(items, key, from) then Item(Count(i), from + ttl)
    else if i <= LeftOver(items, key, max) then Item(Count(items[key].value.n + i), items[key].expiresAt)
    else Item(Count(i - LeftOver(items, key, max)), items[key].expiresAt + ttl)
  }

  lemma WorstStep(items: Items, key: string, ttl: nat, max: nat, from: nat, i: nat)
    requires CounterBy(items, key, ttl, from) && ttl > 0 && i < |Worst(items, key, ttl, max, from)|
    ensures var before := if i == 0 then items else items[key := WorstItem(items, key, ttl, max, from, i)];
            Served(before, Worst(items, key, ttl, max, from)[i])
            == items[key := WorstItem(items, key, ttl, max, from, i + 1)]
  {
  }

  /** The counter after `i` requests of the worst case. */
  lemma {:induction false} WorstCounts(items: Items, key: string, ttl: nat, max: nat, from: nat, i: nat)
    requires CounterBy(items, key, ttl, from) && ttl > 0 && 0 < i <= |Worst(items, key, ttl, max, from)|
    ensures Store(items, Worst(items, key, ttl, max, from)[..i])
            == items[key := WorstItem(items, key, ttl, max, from, i)]
  {
    StoreStep(items, Worst(items, key, ttl, max, from), i - 1);
    WorstStep(items, key, ttl, max, from, i - 1);
    if i > 1 {
      WorstCounts(items, key, ttl, max, from, i - 1);
    } else {
      assert Worst(items, key, ttl, max, from)[..0] == [];
    }
  }

  lemma WorstIsCounted(items: Items, key: string, ttl: nat, max: nat, from: nat)
    requires CounterBy(items, key, ttl, from) && ttl > 0
    ensures Counted(Worst(items, key, ttl, max, from), key, ttl)
            && NotBefore(Worst(items, key, ttl, max, from), key, from)
    ensures |Worst(items, key, ttl, max, from)| == Allowance(items, key, ttl, max, from)
  {
  }

  lemma WorstIsAdmitted(items: Items, key: string, ttl: nat, max: nat, from: nat, i: nat)
    requires CounterBy(items, key, ttl, from) && ttl > 0 && i < |Worst(items, key, ttl, max, from)|
    ensures i in Admitted(items, Worst(items, key, ttl, max, from), key, max, from, from + ttl - 1)
  {
    WorstCounts(items, key, ttl, max, from, i + 1);
  }

  /** And every counter state's allowance is used up by some traffic. */
  lemma AllowanceIsReached(items: Items, key: string, ttl: nat, max: nat, from: nat)
    requires CounterBy(items, key, ttl, from) && ttl > 0
    ensures var events := Worst(items, key, ttl, max, from);
            && Counted(events, key, ttl) && NotBefore(events, key, from)
            && |Admitted(items, events, key, max, from, from + ttl - 1)| == Allowance(items, key, ttl, max, from)
  {
    var events := Worst(items, key, ttl, max, from);
    WorstIsCounted(items, key, ttl, max, from);
    var admitted := Admitted(items, events, key, max, from, from + ttl - 1);
    forall i | i in UpTo(|events|) ensures i in admitted {
      WorstIsAdmitted(items, key, ttl, max, from, i);
    }
    AdmittedIsBounded(items, events, key, max, from, from + ttl - 1);
    assert admitted == UpTo(|events|);
  }

  /**
   * When the window slides, exactly: from `from` on, every stretch of one ttl lets at most `max`
   * through iff the counter found there is gone, used up, or set at that very instant.
   */
  lemma SlidesIff(items: Items, key: string, ttl: nat, max: nat, from: nat)
    requires CounterBy(items, key, ttl, from) && ttl > 0 && max > 0
    ensures (forall events :: Counted(events, key, ttl) && NotBefore(events, key, from) ==>
               |Admitted(items, events, key, max, from, from + ttl - 1)| <= max)
            <==> !Live(items, key, from) || items[key].value.n >= max || items[key].expiresAt == from + ttl
  {
    if Allowance(items, key, ttl, max, from) <= max {
      forall events | Counted(events, key, ttl) && NotBefore(events, key, from)
        ensures |Admitted(items, events, key, max, from, from + ttl - 1)| <= max
      {
        StretchKeepsAllowance(items, events, key, ttl, max, from);
      }
    } else {
      AllowanceIsReached(items, key, ttl, max, from);
    }
  }
}
