/**
 * The mock id generator: a table of per-prefix counters that every call
 * bumps, and ids of the form PREFIX_counter_timestamp.
 */
module IdGenerator {
  import opened Text

  /** The counter a prefix has reached; a prefix never used reads as 0. */
  function Count(counters: map<string, nat>, prefix: string): nat
  {
    if prefix in counters then counters[prefix] else 0
  }

  /** Every prefix outside `drawn` has the same counter in c0 and c1. */
  ghost predicate OthersKept(c0: map<string, nat>, c1: map<string, nat>, drawn: set<string>)
  {
    forall p :: p !in drawn ==> Count(c1, p) == Count(c0, p)
  }

  /** The id produced for counter value n at time `now` (milliseconds). */
  function MockId(prefix: string, n: nat, now: nat): string
  {
    ToUpper(prefix) + "_" + PadStart(NatToString(n), 3, '0') + "_" + TakeLast(NatToString(now), 6)
  }

  /** A typed id wins; an empty one falls back to the generated id. */
  function ManualOr(manual: string, generated: string): (id: string)
    ensures manual != "" ==> id == manual
    ensures manual == "" ==> id == generated
  {
    if manual != "" then manual else generated
  }

  class IdGen {
    var counters: map<string, nat>

    constructor()
      ensures counters == map[]
    {
      counters := map[];
    }

    /** Initialise the prefix's counter to 0 if needed, bump it, and format the id. */
    method Next(prefix: string, now: nat) returns (id: string)
      modifies this
      ensures counters.Keys == old(counters).Keys + {prefix}
      ensures forall q :: Count(counters, q) == Count(old(counters), q) + (if q == prefix then 1 else 0)
      ensures id == MockId(prefix, Count(old(counters), prefix) + 1, now)
    {
      if prefix !in counters {
        counters := counters[prefix := 0];
      }
      counters := counters[prefix := counters[prefix] + 1];
      id := ToUpper(prefix) + "_" + PadStart(NatToString(counters[prefix]), 3, '0') + "_"
        + TakeLast(NatToString(now), 6);
    }

    /** `manual || generateMockId(prefix)`: a counter is drawn only when no id was typed. */
    method ManualOrNext(manual: string, prefix: string, now: nat) returns (id: string)
      modifies this
      ensures id == ManualOr(manual, MockId(prefix, Count(old(counters), prefix) + 1, now))
      ensures manual != "" ==> counters == old(counters)
      ensures manual == "" ==> Count(counters, prefix) == Count(old(counters), prefix) + 1
      ensures OthersKept(old(counters), counters, {prefix})
    {
      if manual != "" {
        return manual;
      }
      id := Next(prefix, now);
    }
  }

  /** A first call with a fresh prefix uses the counter value 1. */
  lemma FirstCallUsesOne(counters: map<string, nat>, prefix: string, now: nat)
    requires prefix !in counters
    ensures MockId(prefix, Count(counters, prefix) + 1, now)
         == ToUpper(prefix) + "_001_" + TakeLast(NatToString(now), 6)
  {
    assert NatToString(1) == "1";
    assert Repeat('0', 2) == "00";
    var u, t := ToUpper(prefix), TakeLast(NatToString(now), 6);
    assert MockId(prefix, 1, now) == u + "_" + "001" + "_" + t;
    assert u + "_" + "001" + "_" + t == u + ("_" + "001" + "_") + t;
    assert "_" + "001" + "_" == "_001_";
  }

  /** The shape of an id: the upper-cased prefix, '_', at least three digits, '_', at most six digits (exactly six once now >= 100000). */
  lemma MockIdShape(prefix: string, n: nat, now: nat)
    ensures var id := MockId(prefix, n, now);
      var c := PadStart(NatToString(n), 3, '0');
      var t := TakeLast(NatToString(now), 6);
      && id == ToUpper(prefix) + "_" + c + "_" + t
      && |c| >= 3 && AllDigits(c) && DecimalValue(c) == n
      && AllDigits(t) && 1 <= |t| <= 6
      && (now >= 100000 ==> |t| == 6)
  {
    PaddedValue(n, 3);
    var s := NatToString(now);
    if now >= 100000 {
      NatToStringLength(now);
    }
  }

  /** A number of at least 10^k has more than k digits. */
  lemma {:induction false} NatToStringLength(n: nat)
    requires n >= 100000
    ensures |NatToString(n)| >= 6
  {
    var a := n / 10;
    var b := a / 10;
    var c := b / 10;
    var d := c / 10;
    assert d >= 10;
    assert |NatToString(d)| >= 2;
    assert |NatToString(c)| >= 3;
    assert |NatToString(b)| >= 4;
    assert |NatToString(a)| >= 5;
  }

  /** Two digit strings each followed by '_' cannot start the same string unless they are equal. */
  lemma {:induction false} DigitsBeforeUnderscore(a: string, c: string, b: string, d: string)
    requires AllDigits(a) && AllDigits(b)
    requires a + "_" + c == b + "_" + d
    ensures a == b
  {
    var x := a + "_" + c;
    assert x[|a|] == '_';
    assert (b + "_" + d)[|b|] == '_';
    assert a == x[..|a|];
    assert b == x[..|b|];
  }

  /** The part of an id after the upper-cased prefix and its '_'. */
  function IdTail(n: nat, now: nat): string
  {
    PadStart(NatToString(n), 3, '0') + "_" + TakeLast(NatToString(now), 6)
  }

  lemma MockIdSplit(prefix: string, n: nat, now: nat)
    ensures MockId(prefix, n, now) == (ToUpper(prefix) + "_") + IdTail(n, now)
  {
  }

  lemma SamePrefixCancels(a: string, x: string, y: string)
    requires a + x == a + y
    ensures x == y
  {
    assert x == (a + x)[|a|..];
    assert y == (a + y)[|a|..];
  }

  /** Two calls with the same prefix but different counter values never collide, whatever the two timestamps. */
  lemma MockIdDistinct(prefix: string, n: nat, m: nat, t1: nat, t2: nat)
    requires n != m
    ensures MockId(prefix, n, t1) != MockId(prefix, m, t2)
  {
    PaddedValue(n, 3);
    PaddedValue(m, 3);
    if MockId(prefix, n, t1) == MockId(prefix, m, t2) {
      MockIdSplit(prefix, n, t1);
      MockIdSplit(prefix, m, t2);
      SamePrefixCancels(ToUpper(prefix) + "_", IdTail(n, t1), IdTail(m, t2));
      DigitsBeforeUnderscore(PadStart(NatToString(n), 3, '0'), TakeLast(NatToString(t1), 6),
                             PadStart(NatToString(m), 3, '0'), TakeLast(NatToString(t2), 6));
    }
  }
}
