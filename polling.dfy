/** Bounded polling, as both retry loops of the relayer (offchain-relayer/src/main.ts) do it:
    ask an external service once per attempt, stop at the first answer that is ready, and
    pause after every attempt that was not. Answer `n` is what the service says to the
    `n`-th query (counting from 0); `None` means "not ready". */
module Polling {
  import opened Wrappers

  /** How a poll ended: the answer it took (if any) and how many queries it issued. */
  datatype Poll<T> = Poll(value: Option<T>, queries: nat)

  /** The poll that has already issued `n` unanswered queries and may issue `budget` in all. */
  function PollFrom<T>(answer: nat -> Option<T>, budget: nat, n: nat): Poll<T>
    requires n <= budget
    decreases budget - n
  {
    if n == budget then Poll(None, budget)
    else if answer(n).Some? then Poll(answer(n), n + 1)
    else PollFrom(answer, budget, n + 1)
  }

  /** A poll with a budget of `budget` queries. */
  function FirstReady<T>(answer: nat -> Option<T>, budget: nat): Poll<T>
  {
    PollFrom(answer, budget, 0)
  }

  /** The poll never exceeds its budget, takes the first ready answer when there is one
      within the budget, and uses up the whole budget exactly when there is none. */
  lemma {:induction false} PollFromIsFirstReady<T>(answer: nat -> Option<T>, budget: nat, n: nat)
    requires n <= budget
    ensures n <= PollFrom(answer, budget, n).queries <= budget
    ensures PollFrom(answer, budget, n).value.Some? <==> exists j :: n <= j < budget && answer(j).Some?
    ensures PollFrom(answer, budget, n).value.Some? ==>
      n < PollFrom(answer, budget, n).queries &&
      PollFrom(answer, budget, n).value == answer(PollFrom(answer, budget, n).queries - 1)
    ensures forall j :: n <= j < PollFrom(answer, budget, n).queries - 1 ==> answer(j).None?
    ensures PollFrom(answer, budget, n).value.None? ==>
      PollFrom(answer, budget, n).queries == budget && forall j :: n <= j < budget ==> answer(j).None?
    decreases budget - n
  {
    if n < budget && answer(n).None? {
      PollFromIsFirstReady(answer, budget, n + 1);
    }
  }

  /** The same facts for a whole poll. */
  lemma FirstReadyFacts<T>(answer: nat -> Option<T>, budget: nat)
    ensures FirstReady(answer, budget).queries <= budget
    ensures FirstReady(answer, budget).value.Some? <==> exists j :: 0 <= j < budget && answer(j).Some?
    ensures FirstReady(answer, budget).value.Some? ==>
      FirstReady(answer, budget).queries >= 1 &&
      FirstReady(answer, budget).value == answer(FirstReady(answer, budget).queries - 1)
    ensures forall j :: 0 <= j < FirstReady(answer, budget).queries - 1 ==> answer(j).None?
    ensures FirstReady(answer, budget).value.None? ==> FirstReady(answer, budget).queries == budget
  {
    PollFromIsFirstReady(answer, budget, 0);
  }

  /** The number of attempts that got no ready answer (each is followed by a pause). */
  function Misses<T>(p: Poll<T>): nat
  {
    if p.value.Some? && p.queries > 0 then p.queries - 1 else p.queries
  }

  /** `block` repeated `k` times. */
  function Repeat<C>(block: seq<C>, k: nat): (r: seq<C>)
    ensures |r| == k * |block|
  {
    if k == 0 then [] else Repeat(block, k - 1) + block
  }

  /** The external calls a poll makes: a query and a pause per miss, then the query that
      was answered, if any. */
  function PollCalls<C, T>(query: C, pause: C, p: Poll<T>): seq<C>
  {
    Repeat([query, pause], Misses(p)) + (if p.value.Some? then [query] else [])
  }

  /** How many elements of `s` satisfy `f`. */
  function CountIf<C>(s: seq<C>, f: C -> bool): nat
  {
    if s == [] then 0 else (if f(s[0]) then 1 else 0) + CountIf(s[1..], f)
  }

  lemma {:induction false} CountIfAppend<C>(a: seq<C>, b: seq<C>, f: C -> bool)
    ensures CountIf(a + b, f) == CountIf(a, f) + CountIf(b, f)
  {
    if a == [] {
      assert a + b == b;
    } else {
      assert (a + b)[0] == a[0];
      assert (a + b)[1..] == a[1..] + b;
      CountIfAppend(a[1..], b, f);
    }
  }

  lemma {:induction false} CountIfRepeatPair<C>(x: C, y: C, k: nat, f: C -> bool)
    requires !f(y)
    ensures CountIf(Repeat([x, y], k), f) == if f(x) then k else 0
  {
    if k > 0 {
      CountIfAppend(Repeat([x, y], k - 1), [x, y], f);
      assert [x, y][1..] == [y];
      assert [y][1..] == [];
      assert CountIf([y], f) == 0;
      assert CountIf([x, y], f) == if f(x) then 1 else 0;
      CountIfRepeatPair(x, y, k - 1, f);
    }
  }

  /** A poll issues exactly `queries` calls that are queries, and none beyond its budget. */
  lemma PollCallsCount<C, T>(query: C, pause: C, p: Poll<T>, f: C -> bool)
    requires f(query) && !f(pause)
    requires p.value.Some? ==> p.queries >= 1
    ensures CountIf(PollCalls(query, pause, p), f) == p.queries
  {
    CountIfRepeatPair(query, pause, Misses(p), f);
    var tail: seq<C> := if p.value.Some? then [query] else [];
    CountIfAppend(Repeat([query, pause], Misses(p)), tail, f);
    if p.value.Some? {
      assert tail[1..] == [];
    }
  }

  /** A sequence none of whose elements satisfies `f` counts zero. */
  lemma {:induction false} CountIfNone<C>(s: seq<C>, f: C -> bool)
    requires forall c :: c in s ==> !f(c)
    ensures CountIf(s, f) == 0
  {
    if s != [] {
      assert s[0] in s;
      assert forall c :: c in s[1..] ==> c in s;
      CountIfNone(s[1..], f);
    }
  }

  /** A count of zero means no element satisfies `f`. */
  lemma {:induction false} CountIfZero<C>(s: seq<C>, f: C -> bool)
    requires CountIf(s, f) == 0
    ensures forall c :: c in s ==> !f(c)
  {
    if s != [] {
      CountIfZero(s[1..], f);
      assert forall c :: c in s ==> c == s[0] || c in s[1..];
    }
  }

  lemma {:induction false} RepeatPairMembers<C>(x: C, y: C, k: nat)
    ensures forall c :: c in Repeat([x, y], k) ==> c == x || c == y
  {
    if k > 0 {
      RepeatPairMembers(x, y, k - 1);
    }
  }

  /** A poll makes no call other than its query and its pause. */
  lemma PollCallsMembers<C, T>(query: C, pause: C, p: Poll<T>)
    ensures forall c :: c in PollCalls(query, pause, p) ==> c == query || c == pause
  {
    RepeatPairMembers(query, pause, Misses(p));
  }
}
