/**
  The raw form of a stored message that download and release_one produce:
  one line "name: value\r\n" for every value of every header, then an empty
  line, then the body. Header names come in Go's map iteration order, which
  is unspecified, so the serialisation is stated for an arbitrary key order.
 */
module Serialise {
  import opened Data

  function HeaderLine(name: string, value: string): string {
    name + ": " + value + "\r\n"
  }

  /** The lines of one header, one per value, in stored order. */
  function ValueLines(name: string, values: seq<string>): (ls: seq<string>)
    ensures |ls| == |values|
    ensures forall i :: 0 <= i < |values| ==> ls[i] == HeaderLine(name, values[i])
  {
    if values == [] then []
    else ValueLines(name, values[..|values| - 1]) + [HeaderLine(name, values[|values| - 1])]
  }

  /** The header lines when the header names are visited in `order`. */
  function Lines(order: seq<string>, hs: Header): seq<string> {
    if order == [] then []
    else
      var name := order[|order| - 1];
      Lines(order[..|order| - 1], hs) + ValueLines(name, Values(hs, name))
  }

  function Concat(ss: seq<string>): string {
    if ss == [] then "" else Concat(ss[..|ss| - 1]) + ss[|ss| - 1]
  }

  /** The bytes of `c` when its header names are visited in `order`. */
  function Serialised(order: seq<string>, c: Content): string {
    Concat(Lines(order, c.headers)) + "\r\n" + c.body
  }

  /** `order` visits every header name of `hs` exactly once. */
  ghost predicate IsKeyOrder(order: seq<string>, hs: Header) {
    && (forall i, j :: 0 <= i < j < |order| ==> order[i] != order[j])
    && (forall k :: k in order <==> k in hs)
  }

  /** `bytes` is the serialisation of `c` for some visiting order of its header names. */
  ghost predicate IsSerialisation(bytes: string, c: Content) {
    exists order :: IsKeyOrder(order, c.headers) && bytes == Serialised(order, c)
  }

  /** `order` lists, once each, exactly the header names of `hs` that are not `remaining`. */
  ghost predicate Visited(order: seq<string>, hs: Header, remaining: set<string>) {
    && remaining <= hs.Keys
    && (forall i, j :: 0 <= i < j < |order| ==> order[i] != order[j])
    && (forall k :: k in order <==> k in hs && k !in remaining)
  }

  lemma VisitStart(hs: Header)
    ensures Visited([], hs, hs.Keys)
  {
  }

  /** Visiting one of the remaining names. */
  lemma VisitStep(order: seq<string>, hs: Header, remaining: set<string>, name: string)
    requires Visited(order, hs, remaining) && name in remaining
    ensures Visited(order + [name], hs, remaining - {name})
  {
  }

  /** Once nothing remains, every name has been visited exactly once. */
  lemma VisitEnd(order: seq<string>, hs: Header)
    requires Visited(order, hs, {})
    ensures IsKeyOrder(order, hs)
  {
  }

  /** The number of header values in `hs`, whatever the order. */
  ghost function TotalValues(hs: Header): nat
    decreases |hs|
  {
    if hs == map[] then 0
    else
      var k := SomeName(hs);
      assert |hs - {k}| < |hs| by { assert (hs - {k}).Keys == hs.Keys - {k}; }
      |hs[k]| + TotalValues(hs - {k})
  }

  ghost function SomeName(hs: Header): (k: string)
    requires hs != map[]
    ensures k in hs
  {
    var k :| k in hs; k
  }

  lemma {:induction false} TotalValuesRemove(hs: Header, k: string)
    requires k in hs
    ensures TotalValues(hs) == |hs[k]| + TotalValues(hs - {k})
    decreases |hs|
  {
    var j := SomeName(hs);
    assert (hs - {j}).Keys == hs.Keys - {j};
    if j != k {
      assert (hs - {k}).Keys == hs.Keys - {k};
      TotalValuesRemove(hs - {j}, k);
      TotalValuesRemove(hs - {k}, j);
      assert hs - {j} - {k} == hs - {k} - {j};
    }
  }

  lemma {:induction false} ConcatAppend(a: seq<string>, b: seq<string>)
    ensures Concat(a + b) == Concat(a) + Concat(b)
    decreases |b|
  {
    if b != [] {
      assert (a + b)[..|a + b| - 1] == a + b[..|b| - 1];
      ConcatAppend(a, b[..|b| - 1]);
    } else {
      assert a + b == a;
    }
  }

  lemma ConcatSingle(s: string)
    ensures Concat([s]) == s
  {
    assert [s][..0] == [];
  }

  lemma {:induction false} LinesAppend(a: seq<string>, b: seq<string>, hs: Header)
    ensures Lines(a + b, hs) == Lines(a, hs) + Lines(b, hs)
    decreases |b|
  {
    if b != [] {
      assert (a + b)[..|a + b| - 1] == a + b[..|b| - 1];
      LinesAppend(a, b[..|b| - 1], hs);
    } else {
      assert a + b == a;
    }
  }

  lemma LinesSnoc(order: seq<string>, name: string, hs: Header)
    ensures Lines(order + [name], hs) == Lines(order, hs) + ValueLines(name, Values(hs, name))
  {
    assert (order + [name])[..|order|] == order;
  }

  lemma ValueLinesSnoc(name: string, values: seq<string>, j: nat)
    requires j < |values|
    ensures ValueLines(name, values[..j + 1]) == ValueLines(name, values[..j]) + [HeaderLine(name, values[j])]
  {
    assert values[..j + 1][..j] == values[..j];
  }

  /** Visiting `k` between `a` and `b` adds exactly the lines of `k`. */
  lemma LinesSplit(a: seq<string>, k: string, b: seq<string>, hs: Header)
    ensures multiset(Lines(a + [k] + b, hs))
         == multiset(Lines(a + b, hs)) + multiset(ValueLines(k, Values(hs, k)))
  {
    LinesAppend(a + [k], b, hs);
    LinesSnoc(a, k, hs);
    LinesAppend(a, b, hs);
  }

  /** Header lines depend only on the headers that are visited. */
  lemma {:induction false} LinesOutside(order: seq<string>, hs: Header, k: string)
    requires k !in order
    ensures Lines(order, hs) == Lines(order, hs - {k})
    decreases |order|
  {
    if order != [] {
      LinesOutside(order[..|order| - 1], hs, k);
    }
  }

  /** Dropping one visited name gives a visiting order of the remaining headers. */
  lemma KeyOrderRemove(order: seq<string>, hs: Header, j: nat)
    requires IsKeyOrder(order, hs) && j < |order|
    ensures IsKeyOrder(order[..j] + order[j + 1..], hs - {order[j]})
    ensures order[j] !in order[..j] + order[j + 1..]
  {
    var rest := order[..j] + order[j + 1..];
    assert |rest| == |order| - 1;
    assert forall i :: 0 <= i < |rest| ==> rest[i] == order[if i < j then i else i + 1];
    assert forall i :: 0 <= i < |rest| ==> rest[i] != order[j];
    forall k
      ensures k in rest <==> k in hs - {order[j]}
    {
      if k in rest {
        var i :| 0 <= i < |rest| && rest[i] == k;
        assert k == order[if i < j then i else i + 1];
      }
      if k in hs - {order[j]} {
        var i :| 0 <= i < |order| && order[i] == k;
        assert i != j;
        assert rest[if i < j then i else i - 1] == k;
      }
    }
  }

  /** The number of header lines is the number of header values. */
  lemma {:induction false} LineCount(order: seq<string>, hs: Header)
    requires IsKeyOrder(order, hs)
    ensures |Lines(order, hs)| == TotalValues(hs)
    decreases |order|
  {
    if order == [] {
      assert forall k :: k !in hs;
      assert hs == map[];
    } else {
      var n := |order| - 1;
      var k := order[n];
      KeyOrderRemove(order, hs, n);
      assert order[..n] + order[n + 1..] == order[..n];
      LineCount(order[..n], hs - {k});
      LinesOutside(order[..n], hs, k);
      TotalValuesRemove(hs, k);
    }
  }

  /** An order visits no name exactly when there are no headers. */
  lemma KeyOrderEmpty(order: seq<string>, hs: Header)
    requires IsKeyOrder(order, hs)
    ensures order == [] <==> hs.Keys == {}
  {
    if order != [] {
      assert order[0] in hs;
    } else {
      assert forall k :: k !in hs;
    }
  }

  /** A non-empty sequence is its front followed by its last element. */
  lemma SplitLast(o: seq<string>)
    requires o != []
    ensures o == o[..|o| - 1] + [o[|o| - 1]]
  {
  }

  /** A sequence is what comes before index j, the element at j, and what comes after. */
  lemma SplitAt(o: seq<string>, j: nat)
    requires j < |o|
    ensures o == o[..j] + [o[j]] + o[j + 1..]
  {
  }

  /**
    Appending `k` to one order and inserting it into another keeps their lines
    the same when the orders without `k` give the same lines.
   */
  lemma PermutationStep(p: seq<string>, a: seq<string>, b: seq<string>, k: string, hs: Header)
    requires k !in p && k !in a + b
    requires multiset(Lines(p, hs - {k})) == multiset(Lines(a + b, hs - {k}))
    ensures multiset(Lines(p + [k], hs)) == multiset(Lines(a + [k] + b, hs))
  {
    calc {
      multiset(Lines(p + [k], hs));
      { LinesSnoc(p, k, hs); }
      multiset(Lines(p, hs)) + multiset(ValueLines(k, Values(hs, k)));
      { LinesOutside(p, hs, k); }
      multiset(Lines(p, hs - {k})) + multiset(ValueLines(k, Values(hs, k)));
      multiset(Lines(a + b, hs - {k})) + multiset(ValueLines(k, Values(hs, k)));
      { LinesOutside(a + b, hs, k); }
      multiset(Lines(a + b, hs)) + multiset(ValueLines(k, Values(hs, k)));
      { LinesSplit(a, k, b, hs); }
      multiset(Lines(a + [k] + b, hs));
    }
  }

  /** Any two visiting orders give the same header lines, possibly rearranged. */
  lemma {:induction false} LinesPermutation(o1: seq<string>, o2: seq<string>, hs: Header)
    requires IsKeyOrder(o1, hs) && IsKeyOrder(o2, hs)
    ensures multiset(Lines(o1, hs)) == multiset(Lines(o2, hs))
    decreases |o1|
  {
    if o1 == [] {
      KeyOrderEmpty(o1, hs);
      KeyOrderEmpty(o2, hs);
    } else {
      var n := |o1| - 1;
      var k := o1[n];
      assert k in hs;
      assert k in o2;
      var j :| 0 <= j < |o2| && o2[j] == k;
      KeyOrderRemove(o1, hs, n);
      assert o1[..n] + o1[n + 1..] == o1[..n];
      KeyOrderRemove(o2, hs, j);
      LinesPermutation(o1[..n], o2[..j] + o2[j + 1..], hs - {k});
      PermutationStep(o1[..n], o2[..j], o2[j + 1..], k, hs);
      SplitLast(o1);
      SplitAt(o2, j);
    }
  }

  /** Appending the line of the next value extends the lines of one header by that line. */
  lemma ValueLinesStep(name: string, values: seq<string>, j: nat)
    requires j < |values|
    ensures Concat(ValueLines(name, values[..j + 1]))
         == Concat(ValueLines(name, values[..j])) + HeaderLine(name, values[j])
  {
    ValueLinesSnoc(name, values, j);
    ConcatAppend(ValueLines(name, values[..j]), [HeaderLine(name, values[j])]);
    ConcatSingle(HeaderLine(name, values[j]));
  }

  /** Visiting one more header name appends the lines of all its values. */
  lemma LinesStep(order: seq<string>, name: string, hs: Header)
    ensures Concat(Lines(order + [name], hs)) == Concat(Lines(order, hs)) + Concat(ValueLines(name, Values(hs, name)))
  {
    LinesSnoc(order, name, hs);
    ConcatAppend(Lines(order, hs), ValueLines(name, Values(hs, name)));
  }

  /** Appends the line of every value of header `name`, in stored order, to `bytes`. */
  method AppendValueLines(bytes: string, name: string, values: seq<string>) returns (r: string)
    ensures r == bytes + Concat(ValueLines(name, values))
  {
    r := bytes;
    var j := 0;
    while j < |values|
      invariant 0 <= j <= |values|
      invariant r == bytes + Concat(ValueLines(name, values[..j]))
    {
      ValueLinesStep(name, values, j);
      r := r + HeaderLine(name, values[j]);
      j := j + 1;
    }
    assert values[..j] == values;
  }

  /**
    Builds the serialisation of `c` in a buffer, visiting the header names in
    whatever order the map yields them (the order used is returned).
   */
  method SerialiseMessage(c: Content) returns (bytes: string, order: seq<string>)
    ensures IsKeyOrder(order, c.headers)
    ensures bytes == Serialised(order, c)
  {
    var hs := c.headers;
    var remaining := hs.Keys;
    bytes, order := "", [];
    VisitStart(hs);
    while remaining != {}
      invariant Visited(order, hs, remaining)
      invariant bytes == Concat(Lines(order, hs))
      decreases remaining
    {
      var name :| name in remaining;
      bytes := AppendValueLines(bytes, name, hs[name]);
      LinesStep(order, name, hs);
      VisitStep(order, hs, remaining, name);
      order := order + [name];
      remaining := remaining - {name};
    }
    VisitEnd(order, hs);
    bytes := bytes + "\r\n" + c.body;
  }

  /**
    The Writes download makes for `c`: one per header line, then the empty
    line together with the body. Written back to back they are the serialisation.
   */
  function DownloadChunks(order: seq<string>, c: Content): (chunks: seq<string>)
    ensures Concat(chunks) == Serialised(order, c)
  {
    var chunks := Lines(order, c.headers) + ["\r\n" + c.body];
    ConcatAppend(Lines(order, c.headers), ["\r\n" + c.body]);
    ConcatSingle("\r\n" + c.body);
    chunks
  }
}
