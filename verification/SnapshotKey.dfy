/** The text a snapshot's key is the hash of, and what it tells apart. */
module SnapshotKey {
  import opened SnapshotPool

  function Digit(d: nat): char
    requires d < 10
  {
    "0123456789"[d]
  }

  function Decimal(n: nat): string {
    if n < 10 then [Digit(n)] else Decimal(n / 10) + [Digit(n % 10)]
  }

  function Preimage(s: Snapshot): string {
    Decimal(s.height) + ":" + (Decimal(s.format) + ":" + Tail(s))
  }

  function Tail(s: Snapshot): string {
    Decimal(s.chunks) + s.hash + s.metadata
  }

  lemma {:induction false} DecimalHasNoColon(n: nat)
    ensures ':' !in Decimal(n) && |Decimal(n)| > 0
  {
    if n >= 10 {
      DecimalHasNoColon(n / 10);
    }
  }

  lemma {:induction false} DecimalDetermines(a: nat, b: nat)
    requires Decimal(a) == Decimal(b)
    ensures a == b
  {
    DecimalHasNoColon(a / 10);
    DecimalHasNoColon(b / 10);
    var x, y := Decimal(a), Decimal(b);
    assert x[|x| - 1] == Digit(a % 10) && y[|y| - 1] == Digit(b % 10);
    if a >= 10 && b >= 10 {
      assert x[..|x| - 1] == Decimal(a / 10) && y[..|y| - 1] == Decimal(b / 10);
      DecimalDetermines(a / 10, b / 10);
    }
  }

  lemma SplitAtColon(x: string, r: string, y: string, q: string)
    requires x + ":" + r == y + ":" + q && ':' !in x && ':' !in y
    ensures x == y && r == q
  {
    var s, t := x + ":" + r, y + ":" + q;
    assert s[|x|] == ':' && t[|y|] == ':';
    assert |x| == |y|;
    assert x == s[..|x|] && y == t[..|x|] && r == s[|x| + 1..] && q == t[|x| + 1..];
  }

  /** Two snapshots share a key exactly when height and format agree and the rest runs
      together to the same text. */
  lemma SameKey(s: Snapshot, t: Snapshot)
    ensures Preimage(s) == Preimage(t) <==> s.height == t.height && s.format == t.format && Tail(s) == Tail(t)
  {
    if Preimage(s) == Preimage(t) {
      DecimalHasNoColon(s.height);
      DecimalHasNoColon(t.height);
      SplitAtColon(Decimal(s.height), Decimal(s.format) + ":" + Tail(s),
        Decimal(t.height), Decimal(t.format) + ":" + Tail(t));
      DecimalHasNoColon(s.format);
      DecimalHasNoColon(t.format);
      SplitAtColon(Decimal(s.format), Tail(s), Decimal(t.format), Tail(t));
      DecimalDetermines(s.height, t.height);
      DecimalDetermines(s.format, t.format);
    }
  }

  /** With equally many chunks and hashes of one length the key tells all fields apart. */
  lemma KeyDetermines(s: Snapshot, t: Snapshot)
    requires s.chunks == t.chunks && |s.hash| == |t.hash|
    ensures Preimage(s) == Preimage(t) <==> s == t
  {
    SameKey(s, t);
    if Tail(s) == Tail(t) {
      var n := |Decimal(s.chunks)|;
      assert s.hash == Tail(s)[n..n + |s.hash|] && t.hash == Tail(t)[n..n + |s.hash|];
      assert s.metadata == Tail(s)[n + |s.hash|..] && t.metadata == Tail(t)[n + |s.hash|..];
    }
  }

  /** Without that it does not: nothing separates the number of chunks from the hash, nor
      the hash from the metadata. */
  lemma KeyRunsTogether()
    ensures Preimage(Snapshot(7, 1, 3, "4x", "")) == Preimage(Snapshot(7, 1, 34, "x", ""))
    ensures Preimage(Snapshot(7, 1, 3, "ab", "c")) == Preimage(Snapshot(7, 1, 3, "a", "bc"))
  {
    assert Decimal(34) == "34";
    assert Tail(Snapshot(7, 1, 3, "4x", "")) == "34x" == Tail(Snapshot(7, 1, 34, "x", ""));
    assert Tail(Snapshot(7, 1, 3, "ab", "c")) == "3abc" == Tail(Snapshot(7, 1, 3, "a", "bc"));
  }
}
