/** The strings used as identifiers: `gen_id`, which joins a prefix, a
    timestamp and a counter, and channel ids, which join a run id and the name
    the plan gives the channel. Both are shown to determine their parts, which
    is what lets the other modules treat identifiers as opaque tokens. */
module Ids {

  function Digit(d: nat): char
    requires d < 10
  {
    '0' + d as char
  }

  function Decimal(n: nat): string {
    if n < 10 then [Digit(n)] else Decimal(n / 10) + [Digit(n % 10)]
  }

  function GenId(prefix: string, ts: nat, n: nat): string {
    prefix + "_" + Decimal(ts) + "_" + Decimal(n)
  }

  function ChannelKey(run: string, name: string): string {
    run + ":" + name
  }

  lemma {:induction false} DecimalDigits(n: nat)
    ensures |Decimal(n)| > 0
    ensures forall c :: c in Decimal(n) ==> '0' <= c <= '9'
  {
    if n >= 10 {
      DecimalDigits(n / 10);
    }
  }

  lemma {:induction false} DecimalInjective(m: nat, n: nat)
    requires Decimal(m) == Decimal(n)
    ensures m == n
  {
    DecimalDigits(m / 10);
    DecimalDigits(n / 10);
    var s, t := Decimal(m), Decimal(n);
    assert s[|s| - 1] == Digit(m % 10) && t[|t| - 1] == Digit(n % 10);
    if m >= 10 && n >= 10 {
      assert s[..|s| - 1] == Decimal(m / 10) && t[..|t| - 1] == Decimal(n / 10);
      DecimalInjective(m / 10, n / 10);
    }
  }

  // Joined by a separator the right parts do not contain, two strings agree
  // only if their parts do.
  lemma SplitAtLast(a: string, x: string, b: string, y: string, sep: char)
    requires a + [sep] + x == b + [sep] + y
    requires sep !in x && sep !in y
    ensures a == b && x == y
  {
    var s, t := a + [sep] + x, b + [sep] + y;
    assert forall i :: |a| < i < |s| ==> s[i] == x[i - |a| - 1];
    assert forall i :: |b| < i < |t| ==> t[i] == y[i - |b| - 1];
    assert s[|a|] == sep && t[|b|] == sep;
    assert |a| == |b|;
    assert a == s[..|a|] && b == t[..|b|];
    assert x == s[|a| + 1..] && y == t[|b| + 1..];
  }

  lemma SplitAtFirst(a: string, x: string, b: string, y: string, sep: char)
    requires a + [sep] + x == b + [sep] + y
    requires sep !in a && sep !in b
    ensures a == b && x == y
  {
    var s, t := a + [sep] + x, b + [sep] + y;
    assert forall i :: 0 <= i < |a| ==> s[i] == a[i];
    assert forall i :: 0 <= i < |b| ==> t[i] == b[i];
    assert s[|a|] == sep && t[|b|] == sep;
    assert |a| == |b|;
    assert a == s[..|a|] && b == t[..|b|];
    assert x == s[|a| + 1..] && y == t[|b| + 1..];
  }

  // A generated id determines its prefix, its timestamp and its counter, so
  // ids drawn with different counters, or in different sessions at different
  // milliseconds, never coincide.
  lemma GenIdInjective(p: string, ts: nat, m: nat, q: string, us: nat, n: nat)
    requires GenId(p, ts, m) == GenId(q, us, n)
    ensures p == q && ts == us && m == n
  {
    DecimalDigits(ts);
    DecimalDigits(us);
    DecimalDigits(m);
    DecimalDigits(n);
    SplitAtLast(p + "_" + Decimal(ts), Decimal(m), q + "_" + Decimal(us), Decimal(n), '_');
    SplitAtLast(p, Decimal(ts), q, Decimal(us), '_');
    DecimalInjective(ts, us);
    DecimalInjective(m, n);
  }

  // Channel ids of generated runs determine the run and the planned name,
  // whatever characters the name contains.
  lemma ChannelKeyInjective(ts: nat, m: nat, x: string, us: nat, n: nat, y: string)
    requires ChannelKey(GenId("run", ts, m), x) == ChannelKey(GenId("run", us, n), y)
    ensures GenId("run", ts, m) == GenId("run", us, n) && ts == us && m == n && x == y
  {
    DecimalDigits(ts);
    DecimalDigits(us);
    DecimalDigits(m);
    DecimalDigits(n);
    SplitAtFirst(GenId("run", ts, m), x, GenId("run", us, n), y, ':');
    GenIdInjective("run", ts, m, "run", us, n);
  }

  // The hypothesis that the run id is a generated one is needed: an id with a
  // colon of its own collides.
  lemma ChannelKeyOfArbitraryRunsCollides()
    ensures ChannelKey("a", "b:c") == ChannelKey("a:b", "c")
  {
    assert ChannelKey("a", "b:c") == ['a', ':', 'b', ':', 'c'];
  }

  // The generator itself: a counter, and every id it has handed out.
  class Generator {
    var counter: nat
    ghost var issued: seq<string>

    ghost predicate Valid()
      reads this
    {
      (forall i :: 0 <= i < |issued| ==>
        exists p: string, ts: nat, n: nat :: n < counter && issued[i] == GenId(p, ts, n))
      && forall i, j :: 0 <= i < j < |issued| ==> issued[i] != issued[j]
    }

    constructor ()
      ensures Valid() && issued == []
    {
      counter, issued := 0, [];
    }

    method Next(prefix: string, ts: nat) returns (id: string)
      requires Valid()
      modifies this
      ensures Valid()
      ensures id == GenId(prefix, ts, old(counter)) && counter == old(counter) + 1
      ensures id !in old(issued) && issued == old(issued) + [id]
    {
      var n := counter;
      counter := counter + 1;
      id := GenId(prefix, ts, n);
      forall i | 0 <= i < |issued|
        ensures issued[i] != id
      {
        var p: string, us: nat, m: nat :| m < n && issued[i] == GenId(p, us, m);
        if issued[i] == id {
          GenIdInjective(p, us, m, prefix, ts, n);
        }
      }
      issued := issued + [id];
    }
  }
}
