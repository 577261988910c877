/**
 The ages that the supporting loop keeps for connections that no friend uses,
 and when it closes them. A round finds a key idle when it is a connection and
 is not tracked.
 */
module Reaping {
  import opened Endpoints

  type Ages = map<Endpoint, int>

  const LAST_AGE := 5

  /** Idle keys that are not listed yet start at 1. */
  function Noted(ages: Ages, idle: set<Endpoint>): Ages {
    map e | e in ages.Keys + idle :: if e in ages then ages[e] else 1
  }

  function Reaped(ages: Ages, idle: set<Endpoint>): set<Endpoint> {
    var noted := Noted(ages, idle);
    set e | e in idle && e in noted && noted[e] + 1 >= LAST_AGE
  }

  /** The ages after a round: idle keys are a round older, the rest and the reaped are forgotten. */
  function Aged(ages: Ages, idle: set<Endpoint>): Ages {
    var noted := Noted(ages, idle);
    map e | e in idle && e in noted && noted[e] + 1 < LAST_AGE :: noted[e] + 1
  }

  /** One round, key by key. */
  lemma RoundAt(ages: Ages, idle: set<Endpoint>, e: Endpoint)
    ensures var age := if e in ages then ages[e] else 1;
            && (e in Aged(ages, idle) <==> e in idle && age + 1 < LAST_AGE)
            && (e in Aged(ages, idle) ==> Aged(ages, idle)[e] == age + 1)
            && (e in Reaped(ages, idle) <==> e in idle && age + 1 >= LAST_AGE)
  {
  }

  // ----- Histories of rounds -----

  /** The ages after rounds that found these sets of keys idle, one after the other. */
  function AgesAfter(rounds: seq<set<Endpoint>>): Ages
    decreases |rounds|
  {
    if rounds == [] then map[] else Aged(AgesAfter(rounds[..|rounds| - 1]), rounds[|rounds| - 1])
  }

  function ReapedLast(rounds: seq<set<Endpoint>>): set<Endpoint>
    requires rounds != []
  {
    Reaped(AgesAfter(rounds[..|rounds| - 1]), rounds[|rounds| - 1])
  }

  /** For how many rounds in a row, up to the last, `e` has been found idle. */
  function IdleRun(rounds: seq<set<Endpoint>>, e: Endpoint): (k: nat)
    ensures k <= |rounds|
    ensures forall i :: |rounds| - k <= i < |rounds| ==> e in rounds[i]
    ensures k < |rounds| ==> e !in rounds[|rounds| - k - 1]
    decreases |rounds|
  {
    if rounds == [] || e !in rounds[|rounds| - 1] then 0
    else IdleRun(rounds[..|rounds| - 1], e) + 1
  }

  lemma NextInFour(k: nat)
    ensures (k + 1) % 4 == if k % 4 == 3 then 0 else k % 4 + 1
  {
  }

  /**
   A key is reaped in the fourth round in a row that finds it idle, and then its
   count starts again; until then its age is one more than that count.
   */
  lemma {:induction false} AgesCountIdleRounds(rounds: seq<set<Endpoint>>, e: Endpoint)
    ensures e in AgesAfter(rounds) <==> IdleRun(rounds, e) % 4 != 0
    ensures e in AgesAfter(rounds) ==> AgesAfter(rounds)[e] == 1 + IdleRun(rounds, e) % 4
    ensures rounds != [] ==>
              (e in ReapedLast(rounds) <==> IdleRun(rounds, e) > 0 && IdleRun(rounds, e) % 4 == 0)
    decreases |rounds|
  {
    if rounds != [] {
      var before, idle := rounds[..|rounds| - 1], rounds[|rounds| - 1];
      AgesCountIdleRounds(before, e);
      RoundAt(AgesAfter(before), idle, e);
      var k := IdleRun(before, e);
      NextInFour(k);
      if e in idle {
        assert IdleRun(rounds, e) == k + 1;
      } else {
        assert IdleRun(rounds, e) == 0;
      }
    }
  }

  /** After a round the listed keys are the idle ones it left open, aged from 2 to 4. */
  lemma ListedAreIdle(rounds: seq<set<Endpoint>>)
    requires rounds != []
    ensures AgesAfter(rounds).Keys == rounds[|rounds| - 1] - ReapedLast(rounds)
    ensures forall e :: e in AgesAfter(rounds) ==> 2 <= AgesAfter(rounds)[e] <= 4
    ensures ReapedLast(rounds) <= rounds[|rounds| - 1]
  {
    var idle := rounds[|rounds| - 1];
    forall e ensures e in AgesAfter(rounds) <==> e in idle && e !in ReapedLast(rounds)
             ensures e in AgesAfter(rounds) ==> 2 <= AgesAfter(rounds)[e] <= 4
    {
      AgesCountIdleRounds(rounds, e);
    }
  }

  /** A key found idle for fewer than four rounds in a row is left alone. */
  lemma NotReapedEarly(rounds: seq<set<Endpoint>>, e: Endpoint)
    requires rounds != [] && e in ReapedLast(rounds)
    ensures |rounds| >= 4
    ensures forall i :: |rounds| - 4 <= i < |rounds| ==> e in rounds[i]
  {
    AgesCountIdleRounds(rounds, e);
  }
}
