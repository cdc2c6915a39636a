/** Drawing numbers from the shared Redis counter until the code is not blacklisted
    (Shortener/sequence/redis.go and the loop in convertlogic.go). */
module CodeDraw {
  import opened Prelude
  import opened Base62

  /** Redis keeps a signed 64-bit value under the counter's key and refuses to go beyond it. */
  const MAX_COUNTER: nat := 0x7fff_ffff_ffff_ffff

  /** One INCR as this request experiences it: other requests draw first, then it succeeds or fails. */
  datatype Incr = Incr(others: nat, fails: bool)

  function Advanced(counter: nat, others: nat): nat {
    if counter + others <= MAX_COUNTER then counter + others else if counter <= MAX_COUNTER then MAX_COUNTER else counter
  }

  /** The counter after one INCR, and the number Next returns: 0 when INCR failed, with no error. */
  function CounterNext(counter: nat, e: Incr): nat {
    var c := Advanced(counter, e.others);
    if e.fails || c >= MAX_COUNTER then c else c + 1
  }

  function Drawn(counter: nat, e: Incr): nat {
    var c := Advanced(counter, e.others);
    if e.fails || c >= MAX_COUNTER then 0 else c + 1
  }

  class RedisSequence {
    var counter: nat

    constructor (start: nat)
      ensures counter == start
    {
      counter := start;
    }

    /** Next: INCR; an error is logged and swallowed, and the number is then 0. */
    method Next(e: Incr) returns (seq0: Uint64)
      requires counter <= MAX_COUNTER
      modifies this
      ensures counter == CounterNext(old(counter), e) && old(counter) <= counter <= MAX_COUNTER
      ensures seq0 == Drawn(old(counter), e)
      ensures seq0 == 0 || old(counter) < seq0 == counter
    {
      counter := Advanced(counter, e.others);
      if e.fails || counter >= MAX_COUNTER {
        return 0;
      }
      counter := counter + 1;
      return counter;
    }
  }

  // ---------------------------------------------------------------- a request's own draws

  /** The counter before draw number k of a request that started at c. */
  function CounterAt(c: nat, env: nat -> Incr, k: nat): nat {
    if k == 0 then c else CounterNext(CounterAt(c, env, k - 1), env(k - 1))
  }

  /** The number that draw k returns. */
  function DrawAt(c: nat, env: nat -> Incr, k: nat): nat {
    Drawn(CounterAt(c, env, k), env(k))
  }

  ghost predicate Rejected(alphabet: string, blacklist: set<string>, c: nat, env: nat -> Incr, k: nat)
    requires |alphabet| == 62
  {
    Encode(alphabet, DrawAt(c, env, k)) in blacklist
  }

  /** Successful draws of one request increase strictly, whoever else draws in between. */
  lemma {:induction false} DrawsIncrease(c: nat, env: nat -> Incr, j: nat, k: nat)
    requires j < k && DrawAt(c, env, j) != 0 && DrawAt(c, env, k) != 0
    ensures DrawAt(c, env, j) < DrawAt(c, env, k)
  {
    CounterGrows(c, env, j + 1, k);
  }

  lemma {:induction false} CounterGrows(c: nat, env: nat -> Incr, j: nat, k: nat)
    requires j <= k
    ensures CounterAt(c, env, j) <= CounterAt(c, env, k)
  {
    if j < k {
      CounterGrows(c, env, j, k - 1);
    }
  }

  lemma DrawsDistinct(alphabet: string, c: nat, env: nat -> Incr, j: nat, k: nat)
    requires ValidAlphabet(alphabet) && DrawAt(c, env, j) != 0 && DrawAt(c, env, k) != 0
    requires Encode(alphabet, DrawAt(c, env, j)) == Encode(alphabet, DrawAt(c, env, k))
    ensures j == k
  {
    EncodeInjective(alphabet, DrawAt(c, env, j), DrawAt(c, env, k));
    if j < k {
      DrawsIncrease(c, env, j, k);
    } else if k < j {
      DrawsIncrease(c, env, k, j);
    }
  }

  /** Pigeonhole: n rejected successful draws need n different blacklisted codes. */
  lemma RejectionsBounded(alphabet: string, blacklist: set<string>, c: nat, env: nat -> Incr, n: nat)
    requires ValidAlphabet(alphabet)
    requires forall k: nat | k < n :: DrawAt(c, env, k) != 0 && Rejected(alphabet, blacklist, c, env, k)
    ensures n <= |blacklist|
  {
    var codeOf := (k: nat) => Encode(alphabet, DrawAt(c, env, k));
    forall j, k | j in Below(n) && k in Below(n) && codeOf(j) == codeOf(k)
      ensures j == k
    {
      DrawsDistinct(alphabet, c, env, j, k);
    }
    forall k | k in Below(n)
      ensures codeOf(k) in blacklist
    {
      assert Rejected(alphabet, blacklist, c, env, k);
    }
    InjectiveImageSize(Below(n), codeOf, blacklist);
  }

  function Below(n: nat): (s: set<nat>)
    ensures |s| == n
    ensures forall k: nat :: k in s <==> k < n
  {
    if n == 0 then {} else Below(n - 1) + {n - 1}
  }

  /** Some draw of this request is accepted. */
  ghost predicate Ends(alphabet: string, blacklist: set<string>, c: nat, env: nat -> Incr)
    requires |alphabet| == 62
  {
    exists k: nat :: !Rejected(alphabet, blacklist, c, env, k)
  }

  /** The code of 0 is allowed, or INCR succeeds on the first |blacklist| + 1 draws. */
  ghost predicate EndsSoon(alphabet: string, blacklist: set<string>, c: nat, env: nat -> Incr)
    requires |alphabet| == 62
  {
    Encode(alphabet, 0) !in blacklist || forall k: nat | k <= |blacklist| :: DrawAt(c, env, k) != 0
  }

  /** Then one of them is accepted. */
  lemma SomeDrawAccepted(alphabet: string, blacklist: set<string>, c: nat, env: nat -> Incr)
    requires ValidAlphabet(alphabet) && EndsSoon(alphabet, blacklist, c, env)
    ensures Ends(alphabet, blacklist, c, env)
    ensures exists k: nat :: k <= |blacklist| && !Rejected(alphabet, blacklist, c, env, k)
  {
    if forall k: nat | k <= |blacklist| :: Rejected(alphabet, blacklist, c, env, k) {
      forall k: nat | k < |blacklist| + 1
        ensures DrawAt(c, env, k) != 0
      {
        assert Rejected(alphabet, blacklist, c, env, k);
      }
      RejectionsBounded(alphabet, blacklist, c, env, |blacklist| + 1);
    }
  }

  /** The loop ends in every environment if and only if the code of 0 is not blacklisted: a failing
      INCR yields 0 again and again. */
  lemma LoopEndsIff(alphabet: string, blacklist: set<string>)
    requires ValidAlphabet(alphabet)
    ensures (forall c: nat, env: nat -> Incr :: Ends(alphabet, blacklist, c, env)) <==> Encode(alphabet, 0) !in blacklist
  {
    if Encode(alphabet, 0) in blacklist {
      var env: nat -> Incr := (k: nat) => Incr(0, true);
      forall k: nat
        ensures Rejected(alphabet, blacklist, 0, env, k)
      {
        assert DrawAt(0, env, k) == 0;
      }
      assert !Ends(alphabet, blacklist, 0, env);
    } else {
      forall c: nat, env: nat -> Incr
        ensures Ends(alphabet, blacklist, c, env)
      {
        SomeDrawAccepted(alphabet, blacklist, c, env);
      }
    }
  }

  lemma AcceptedDraw(alphabet: string, blacklist: set<string>, c: nat, env: nat -> Incr) returns (last: nat)
    requires ValidAlphabet(alphabet) && Ends(alphabet, blacklist, c, env)
    ensures !Rejected(alphabet, blacklist, c, env, last)
    ensures EndsSoon(alphabet, blacklist, c, env) ==> last <= |blacklist|
  {
    if EndsSoon(alphabet, blacklist, c, env) {
      SomeDrawAccepted(alphabet, blacklist, c, env);
      last :| last <= |blacklist| && !Rejected(alphabet, blacklist, c, env, last);
    } else {
      last :| !Rejected(alphabet, blacklist, c, env, last);
    }
  }

  lemma NextDraw(c: nat, env: nat -> Incr, k: nat, next: nat, e: Incr)
    requires next == k + 1 && e == env(k)
    ensures CounterAt(c, env, next) == CounterNext(CounterAt(c, env, k), e)
    ensures DrawAt(c, env, k) == Drawn(CounterAt(c, env, k), e)
  {
  }

  lemma SameDraw(c: nat, env: nat -> Incr, k: nat, next: nat)
    requires next == k + 1
    ensures DrawAt(c, env, next - 1) == DrawAt(c, env, k)
  {
  }

  lemma RejectedOneMore(alphabet: string, blacklist: set<string>, c: nat, env: nat -> Incr, n: nat, next: nat)
    requires |alphabet| == 62 && next == n + 1 && Rejected(alphabet, blacklist, c, env, n)
    requires forall k: nat | k < n :: Rejected(alphabet, blacklist, c, env, k)
    ensures forall k: nat | k < next :: Rejected(alphabet, blacklist, c, env, k)
  {
  }

  /** Draw, encode and reject until the code is allowed; the first allowed draw wins, and comes within
      |blacklist| + 1 draws if they succeed or the code of 0 is allowed. */
  method DrawCode(alphabet: string, blacklist: set<string>, sequence: RedisSequence, env: nat -> Incr)
    returns (short: string, draws: nat)
    requires ValidAlphabet(alphabet) && sequence.counter <= MAX_COUNTER && Ends(alphabet, blacklist, sequence.counter, env)
    modifies sequence
    ensures draws >= 1 && (EndsSoon(alphabet, blacklist, old(sequence.counter), env) ==> draws <= |blacklist| + 1)
    ensures short == Encode(alphabet, DrawAt(old(sequence.counter), env, draws - 1)) && short !in blacklist
    ensures forall k: nat | k < draws - 1 :: Rejected(alphabet, blacklist, old(sequence.counter), env, k)
    ensures sequence.counter == CounterAt(old(sequence.counter), env, draws) <= MAX_COUNTER
    ensures 1 <= |short| <= 11
  {
    ghost var c := sequence.counter;
    ghost var last: nat := AcceptedDraw(alphabet, blacklist, c, env);
    draws := 0;
    while true
      invariant sequence.counter == CounterAt(c, env, draws) <= MAX_COUNTER
      invariant forall k: nat | k < draws :: Rejected(alphabet, blacklist, c, env, k)
      invariant draws <= last
      decreases last - draws
    {
      ghost var k := draws;
      short, draws := DrawOnce(alphabet, sequence, env, c, draws);
      SameDraw(c, env, k, draws);
      if short !in blacklist {
        break;
      }
      RejectedOneMore(alphabet, blacklist, c, env, k, draws);
    }
  }

  /** One turn of the loop. */
  method DrawOnce(alphabet: string, sequence: RedisSequence, env: nat -> Incr, ghost c: nat, k: nat) returns (short: string, next: nat)
    requires ValidAlphabet(alphabet) && sequence.counter == CounterAt(c, env, k) <= MAX_COUNTER
    modifies sequence
    ensures next == k + 1
    ensures short == Encode(alphabet, DrawAt(c, env, k)) && 1 <= |short| <= 11
    ensures sequence.counter == CounterAt(c, env, next) <= MAX_COUNTER
  {
    next := k + 1;
    NextDraw(c, env, k, next, env(k));
    var seq0 := sequence.Next(env(k));
    short := Int2String(alphabet, seq0);
  }
}
