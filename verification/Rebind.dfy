/** Placeholder rewriting for PostgreSQL (logging/db.go). */
module Rebind {
  import opened Decimal

  const POSTGRES := "postgres"

  /** `q` with its placeholders numbered `n + 1`, `n + 2`, ... */
  function Numbered(q: string, n: nat): string {
    if q == [] then []
    else if q[0] == '?' then "$" + Format(n + 1) + Numbered(q[1..], n + 1)
    else [q[0]] + Numbered(q[1..], n)
  }

  method Rebind(driver: string, q: string) returns (r: string)
    ensures r == if driver == "postgres" then Numbered(q, 0) else q
  {
    if driver != POSTGRES {
      return q;
    }
    r := "";
    var n := 0;
    for i := 0 to |q|
      invariant n >= 0
      invariant r + Numbered(q[i..], n) == Numbered(q, 0)
    {
      ghost var before := r;
      assert q[i..][0] == q[i] && q[i..][1..] == q[i + 1..];
      if q[i] == '?' {
        n := n + 1;
        r := r + "$";
        r := r + Format(n);
        assert before + ("$" + Format(n) + Numbered(q[i + 1..], n)) == r + Numbered(q[i + 1..], n);
      } else {
        r := r + [q[i]];
        assert before + ([q[i]] + Numbered(q[i + 1..], n)) == r + Numbered(q[i + 1..], n);
      }
    }
    assert r + [] == r;
  }

  function Placeholders(q: string): nat {
    if q == [] then 0 else (if q[0] == '?' then 1 else 0) + Placeholders(q[1..])
  }

  lemma {:induction false} NumberedConcat(a: string, b: string, n: nat)
    ensures Numbered(a + b, n) == Numbered(a, n) + Numbered(b, n + Placeholders(a))
  {
    if a == [] {
      assert a + b == b;
    } else {
      assert (a + b)[1..] == a[1..] + b;
      NumberedConcat(a[1..], b, n + 1);
      NumberedConcat(a[1..], b, n);
    }
  }

  /** What becomes of the byte `c` when `k` placeholders precede it. */
  function Rewritten(c: char, k: nat): string {
    if c == '?' then "$" + Format(k + 1) else [c]
  }

  lemma NumberedOne(c: char, k: nat)
    ensures Numbered([c], k) == Rewritten(c, k)
  {
  }

  lemma NumberedUpTo(front: string, c: char)
    ensures Numbered(front + [c], 0) == Numbered(front, 0) + Rewritten(c, Placeholders(front))
  {
    NumberedConcat(front, [c], 0);
    NumberedOne(c, Placeholders(front));
  }

  /** Every byte stays in its place, wherever the query is cut around it: the k-th '?' becomes '$'
      and the numeral k, any other byte is kept. */
  lemma EachByteInPlace(front: string, c: char, back: string)
    ensures Numbered(front + [c] + back, 0)
         == Numbered(front, 0) + Rewritten(c, Placeholders(front)) + Numbered(back, Placeholders(front + [c]))
  {
    var upTo := front + [c];
    NumberedConcat(upTo, back, 0);
    NumberedUpTo(front, c);
    assert Numbered(upTo, 0) == Numbered(front, 0) + Rewritten(c, Placeholders(front));
  }

  // ---- Reading a numbered query back ----

  datatype Reading = Reading(text: string, numbers: seq<nat>)

  /** Length of the longest run of digits at the front of `s`. */
  function DigitRun(s: string): (k: nat)
    ensures k <= |s| && AllDigits(s[..k])
    ensures k < |s| ==> !IsDigit(s[k])
  {
    if s != [] && IsDigit(s[0]) then
      var k := 1 + DigitRun(s[1..]);
      assert s[..k] == [s[0]] + s[1..][..k - 1];
      k
    else 0
  }

  predicate StartsWithDigit(s: string) {
    s != [] && IsDigit(s[0])
  }

  /** How a lexer takes parameters: a '$' and the longest run of digits after it, if there is one. */
  function Read(s: string): Reading {
    if s == [] then Reading([], [])
    else if s[0] == '$' && StartsWithDigit(s[1..]) then
      var k := DigitRun(s[1..]);
      var rest := Read(s[1..][k..]);
      Reading("?" + rest.text, [Parse(s[1..][..k])] + rest.numbers)
    else
      var rest := Read(s[1..]);
      Reading([s[0]] + rest.text, rest.numbers)
  }

  /** No digit directly follows a '$' or a '?'. */
  ghost predicate Unambiguous(q: string) {
    forall i :: 0 < i < |q| && IsDigit(q[i]) ==> q[i - 1] != '$' && q[i - 1] != '?'
  }

  lemma DigitRunOf(d: string, rest: string)
    requires AllDigits(d) && !StartsWithDigit(rest)
    ensures DigitRun(d + rest) == |d|
  {
    if d == [] {
      assert d + rest == rest;
    } else {
      DigitRunOf(d[1..], rest);
      assert (d + rest)[1..] == d[1..] + rest;
    }
  }

  function Consecutive(first: nat, count: nat): seq<nat>
    decreases count
  {
    if count == 0 then [] else [first] + Consecutive(first + 1, count - 1)
  }

  lemma UnambiguousTail(q: string)
    requires q != [] && Unambiguous(q)
    ensures Unambiguous(q[1..])
    ensures q[0] == '$' || q[0] == '?' ==> !StartsWithDigit(q[1..])
  {
  }

  lemma ReadParameter(d: string, rest: string)
    requires d != [] && AllDigits(d) && !StartsWithDigit(rest)
    ensures Read("$" + d + rest) == Reading("?" + Read(rest).text, [Parse(d)] + Read(rest).numbers)
  {
    var s := "$" + d + rest;
    assert s[1..] == d + rest;
    DigitRunOf(d, rest);
    assert (d + rest)[..|d|] == d && (d + rest)[|d|..] == rest;
  }

  lemma NumberedFront(q: string, n: nat)
    ensures StartsWithDigit(Numbered(q, n)) <==> StartsWithDigit(q)
  {
  }

  lemma ReadPlain(c: char, rest: string)
    requires c == '$' ==> !StartsWithDigit(rest)
    ensures Read([c] + rest) == Reading([c] + Read(rest).text, Read(rest).numbers)
  {
  }

  lemma ReadPlaceholder(k: nat, tail: string)
    requires !StartsWithDigit(tail)
    ensures Read("$" + Format(k) + Numbered(tail, k))
            == Reading("?" + Read(Numbered(tail, k)).text, [k] + Read(Numbered(tail, k)).numbers)
  {
    ParseFormat(k);
    NumberedFront(tail, k);
    ReadParameter(Format(k), Numbered(tail, k));
  }

  lemma {:induction false} ReadsBack(q: string, n: nat)
    requires Unambiguous(q)
    ensures Read(Numbered(q, n)) == Reading(q, Consecutive(n + 1, Placeholders(q)))
  {
    if q != [] {
      var tail := q[1..];
      UnambiguousTail(q);
      assert [q[0]] + tail == q;
      if q[0] == '?' {
        ReadsBack(tail, n + 1);
        ReadPlaceholder(n + 1, tail);
      } else {
        ReadsBack(tail, n);
        NumberedFront(tail, n);
        ReadPlain(q[0], Numbered(tail, n));
      }
    }
  }

  lemma NumberedHasNoQuestionMark(q: string, n: nat)
    ensures '?' !in Numbered(q, n)
  {
  }

  /** Whatever is read from a query without '?', its text has no digit after a '$' or a '?'. */
  lemma {:induction false} ReadingIsUnambiguous(s: string)
    requires '?' !in s
    ensures Unambiguous(Read(s).text)
    ensures StartsWithDigit(Read(s).text) ==> StartsWithDigit(s)
    decreases |s|
  {
    if s != [] {
      var after := if s[0] == '$' && StartsWithDigit(s[1..]) then s[1..][DigitRun(s[1..])..] else s[1..];
      ReadingIsUnambiguous(after);
      var t := Read(after).text;
      var text := Read(s).text;
      assert text[1..] == t;
      forall i | 0 < i < |text| && IsDigit(text[i])
        ensures text[i - 1] != '$' && text[i - 1] != '?'
      {
        assert text[i] == t[i - 1];
        if i > 1 {
          assert text[i - 1] == t[i - 2];
        }
      }
    }
  }

  /** The numbered query reads back as the original with parameters 1, 2, ..., exactly when the
      original has no digit directly after a '$' or a '?'. */
  lemma RebindRoundTrip(q: string)
    ensures Read(Numbered(q, 0)) == Reading(q, Consecutive(1, Placeholders(q))) <==> Unambiguous(q)
  {
    if Unambiguous(q) {
      ReadsBack(q, 0);
    } else {
      NumberedHasNoQuestionMark(q, 0);
      ReadingIsUnambiguous(Numbered(q, 0));
    }
  }

  /** A digit right after a placeholder is swallowed: "?5" is rewritten to "$15", parameter 15. */
  lemma RebindLosesDigit()
    ensures Numbered("?5", 0) == "$15"
    ensures Read(Numbered("?5", 0)) == Reading("?", [15])
  {
    assert Format(1) == "1";
    assert "?5"[1..] == "5" && "5"[1..] == "";
    assert Numbered("5", 1) == "5";
    assert Numbered("?5", 0) == "$" + "1" + "5" == "$15";
    var s := "15";
    assert "$15"[1..] == s && s[1..] == "5" && "5"[1..] == "";
    assert DigitRun("5") == 1;
    assert DigitRun(s) == 2;
    assert s[..2] == s && s[2..] == "";
    assert s[..1] == "1" && "1"[..0] == "";
    assert Parse("1") == 1;
    assert Parse(s) == 15;
  }
}
