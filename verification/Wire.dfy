/** The byte stream both ends share: base-128 unsigned varints, zig-zag signed varints and
    fixed-width little-endian fields, with a writer that appends and a reader that advances.

    Every `Read...` function takes what is left of a packet and gives the value with what is
    left after it, so "it reads back, whatever follows" is one equation. */
module Wire {

  type byte = b: int | 0 <= b < 0x100

  type bytes = seq<byte>

  type int64 = i: int | -0x8000_0000_0000_0000 <= i < 0x8000_0000_0000_0000

  datatype Parsed<+T> = Parsed(value: T, rest: bytes) | Truncated

  /** Two's complement: the int64 an unbounded result is stored as. */
  function Wrap64(i: int): int64 {
    (i + 0x8000_0000_0000_0000) % 0x1_0000_0000_0000_0000 - 0x8000_0000_0000_0000
  }

  function Uvarint(n: nat): bytes {
    if n < 0x80 then [n] else [n % 0x80 + 0x80] + Uvarint(n / 0x80)
  }

  function ReadUvarint(s: bytes): Parsed<nat> {
    if s == [] then Truncated
    else if s[0] < 0x80 then Parsed(s[0], s[1..])
    else
      match ReadUvarint(s[1..])
      case Parsed(high, rest) => Parsed(s[0] - 0x80 + 0x80 * high, rest)
      case Truncated => Truncated
  }

  /** Small magnitudes of either sign get small codes: 0, -1, 1, -2, ... become 0, 1, 2, 3, ... */
  function ZigZag(i: int): nat {
    if i >= 0 then 2 * i else -2 * i - 1
  }

  function UnZigZag(n: nat): int {
    if n % 2 == 0 then n / 2 else -(n / 2) - 1
  }

  function Varint(i: int): bytes {
    Uvarint(ZigZag(i))
  }

  function ReadVarint(s: bytes): Parsed<int> {
    match ReadUvarint(s)
    case Parsed(n, rest) => Parsed(UnZigZag(n), rest)
    case Truncated => Truncated
  }

  lemma Regroup(a: bytes, b: bytes, c: bytes, rest: bytes)
    ensures a + b + c + rest == a + (b + (c + rest))
    ensures a + b + rest == a + (b + rest)
  {
  }

  /** How many values `width` bytes hold. */
  function Span(width: nat): nat {
    if width == 0 then 1 else 0x100 * Span(width - 1)
  }

  /** The low `width` bytes of n, least significant first. */
  function Fixed(n: nat, width: nat): bytes
    decreases n, width
  {
    if width == 0 then [] else [n % 0x100] + Fixed(n / 0x100, width - 1)
  }

  function ReadFixed(s: bytes, width: nat): Parsed<nat>
    decreases s, width
  {
    if width == 0 then Parsed(0, s)
    else if s == [] then Truncated
    else
      match ReadFixed(s[1..], width - 1)
      case Parsed(high, rest) => Parsed(s[0] + 0x100 * high, rest)
      case Truncated => Truncated
  }

  function ReadData(s: bytes, n: nat): Parsed<bytes> {
    if n <= |s| then Parsed(s[..n], s[n..]) else Truncated
  }

  /** A byte string behind its length. */
  function Block(b: bytes): bytes {
    Uvarint(|b|) + b
  }

  function ReadBlock(s: bytes): Parsed<bytes> {
    match ReadUvarint(s)
    case Parsed(n, rest) => ReadData(rest, n)
    case Truncated => Truncated
  }

  lemma {:induction false} UvarintRoundTrip(n: nat, rest: bytes)
    ensures ReadUvarint(Uvarint(n) + rest) == Parsed(n, rest)
  {
    if n < 0x80 {
      assert ([n] + rest)[1..] == rest;
    } else {
      var low: bytes := [n % 0x80 + 0x80];
      assert (low + Uvarint(n / 0x80) + rest)[1..] == Uvarint(n / 0x80) + rest;
      UvarintRoundTrip(n / 0x80, rest);
    }
  }

  lemma VarintRoundTrip(i: int, rest: bytes)
    ensures ReadVarint(Varint(i) + rest) == Parsed(i, rest)
  {
    UvarintRoundTrip(ZigZag(i), rest);
  }

  lemma {:induction false} FixedRoundTrip(n: nat, width: nat, rest: bytes)
    requires n < Span(width)
    ensures |Fixed(n, width)| == width
    ensures ReadFixed(Fixed(n, width) + rest, width) == Parsed(n, rest)
    decreases width
  {
    if width == 0 {
      assert Fixed(n, width) + rest == rest;
    } else {
      var low: bytes := [n % 0x100];
      assert (low + Fixed(n / 0x100, width - 1) + rest)[1..] == Fixed(n / 0x100, width - 1) + rest;
      FixedRoundTrip(n / 0x100, width - 1, rest);
    }
  }

  lemma BlockRoundTrip(b: bytes, rest: bytes)
    ensures ReadBlock(Block(b) + rest) == Parsed(b, rest)
  {
    assert Block(b) + rest == Uvarint(|b|) + (b + rest);
    UvarintRoundTrip(|b|, b + rest);
  }

  lemma Spans()
    ensures Span(1) == 0x100 && Span(2) == 0x1_0000 && Span(4) == 0x1_0000_0000
    ensures Span(8) == 0x1_0000_0000_0000_0000
  {
    assert Span(3) == 0x100_0000;
    assert Span(5) == 0x100 * Span(4) && Span(6) == 0x100 * Span(5) && Span(7) == 0x100 * Span(6);
  }

  /** An id's width on the wire: a byte under 128, two under 16384, and never past ten for the
      64 bits of a zig-zagged int64. */
  lemma {:induction false} UvarintWidth(n: nat)
    ensures |Uvarint(n)| == 1 <==> n < 0x80
    ensures |Uvarint(n)| == 2 <==> 0x80 <= n < 0x4000
    ensures n < 0x1_0000_0000_0000_0000 ==> |Uvarint(n)| <= 10
  {
    UvarintAtMost(n, 0);
    if n >= 0x80 && n / 0x80 >= 0x80 {
      assert |Uvarint(n / 0x80 / 0x80)| >= 1;
    }
    if n < 0x1_0000_0000_0000_0000 {
      UvarintAtMost(n, 9);
    }
  }

  function Pow128(k: nat): nat {
    if k == 0 then 1 else 0x80 * Pow128(k - 1)
  }

  lemma {:induction false} UvarintAtMost(n: nat, k: nat)
    ensures |Uvarint(n)| >= 1
    ensures n < Pow128(k + 1) ==> |Uvarint(n)| <= k + 1
    ensures Pow128(10) == 0x40_0000_0000_0000_0000
    decreases k
  {
    assert Pow128(10) == 0x40_0000_0000_0000_0000 by {
      assert Pow128(2) == 0x4000 && Pow128(4) == 0x4000 * 0x4000;
      assert Pow128(6) == 0x4000 * Pow128(4) && Pow128(8) == 0x4000 * Pow128(6);
      assert Pow128(10) == 0x4000 * Pow128(8);
    }
    if k > 0 && n >= 0x80 && n < Pow128(k + 1) {
      UvarintAtMost(n / 0x80, k - 1);
    }
  }

  lemma Wrap64Cancels(to: int64, from: int64)
    ensures Wrap64(from + Wrap64(to - from)) == to
  {
  }

  /** An int64 as its step from another, exact modulo 2^64. */
  function Step(to: int64, from: int64): bytes {
    Varint(Wrap64(to - from))
  }

  function ReadStep(from: int64, s: bytes): Parsed<int64> {
    match ReadVarint(s)
    case Parsed(i, rest) => Parsed(Wrap64(from + i), rest)
    case Truncated => Truncated
  }

  lemma StepRoundTrip(to: int64, from: int64, rest: bytes)
    ensures ReadStep(from, Step(to, from) + rest) == Parsed(to, rest)
  {
    VarintRoundTrip(Wrap64(to - from), rest);
    Wrap64Cancels(to, from);
  }

  /** A row of int64s, each as its step from the one across from it. */
  function Steps(to: seq<int64>, from: seq<int64>): bytes
    requires |to| == |from|
  {
    if to == [] then [] else Steps(to[..|to| - 1], from[..|to| - 1]) + Step(to[|to| - 1], from[|to| - 1])
  }

  lemma StepsGrow(to: seq<int64>, from: seq<int64>, k: nat)
    requires |to| == |from| && k < |to|
    ensures Steps(to[..k + 1], from[..k + 1]) == Steps(to[..k], from[..k]) + Step(to[k], from[k])
  {
    assert to[..k + 1][..k] == to[..k] && from[..k + 1][..k] == from[..k];
  }

  function ReadSteps(from: seq<int64>, s: bytes): Parsed<seq<int64>> {
    if from == [] then Parsed([], s)
    else
      match ReadSteps(from[..|from| - 1], s)
      case Truncated => Truncated
      case Parsed(to, rest) =>
        match ReadStep(from[|from| - 1], rest)
        case Truncated => Truncated
        case Parsed(t, rest') => Parsed(to + [t], rest')
  }

  lemma {:induction false} StepsRoundTrip(to: seq<int64>, from: seq<int64>, rest: bytes)
    requires |to| == |from|
    ensures ReadSteps(from, Steps(to, from) + rest) == Parsed(to, rest)
  {
    if to != [] {
      var n := |to| - 1;
      var last := Step(to[n], from[n]);
      assert Steps(to[..n], from[..n]) + last + rest == Steps(to[..n], from[..n]) + (last + rest);
      StepsRoundTrip(to[..n], from[..n], last + rest);
      StepRoundTrip(to[n], from[n], rest);
      assert to == to[..n] + [to[n]];
    } else {
      assert Steps(to, from) + rest == rest;
    }
  }

  /** Added to another int64 than it was counted from, a step lands off by what the two differ by:
      right if and only if they are the same. */
  lemma StepFromAnother(to: int64, from: int64, from': int64, rest: bytes)
    ensures ReadStep(from', Step(to, from) + rest) == Parsed(Shift(to, from, from'), rest)
    ensures Shift(to, from, from') == to <==> from == from'
  {
    VarintRoundTrip(Wrap64(to - from), rest);
    WrapShift(to, from, from');
    ShiftsOff(to, from, from');
  }

  /** Where a step counted to `to` from `from` lands when added to from'. */
  function Shift(to: int, from: int, from': int): int64 {
    Wrap64(to + (from' - from))
  }

  function Shifted(to: seq<int64>, from: seq<int64>, from': seq<int64>): seq<int64>
    requires |to| == |from| == |from'|
  {
    seq(|to|, k requires 0 <= k < |to| => Shift(to[k], from[k], from'[k]))
  }

  lemma {:induction false} StepsFromAnother(to: seq<int64>, from: seq<int64>, from': seq<int64>, rest: bytes)
    requires |to| == |from| == |from'|
    ensures ReadSteps(from', Steps(to, from) + rest) == Parsed(Shifted(to, from, from'), rest)
  {
    if to != [] {
      var n := |to| - 1;
      var last := Step(to[n], from[n]);
      assert Steps(to[..n], from[..n]) + last + rest == Steps(to[..n], from[..n]) + (last + rest);
      StepsFromAnother(to[..n], from[..n], from'[..n], last + rest);
      StepFromAnother(to[n], from[n], from'[n], rest);
      var head := Shifted(to[..n], from[..n], from'[..n]);
      assert ReadSteps(from'[..n], Steps(to, from) + rest) == Parsed(head, last + rest);
      assert Shifted(to, from, from') == head + [Shift(to[n], from[n], from'[n])];
    } else {
      assert Steps(to, from) + rest == rest;
      assert Shifted(to, from, from') == [];
    }
  }

  lemma ShiftedAnywhere(to: seq<int64>, from: seq<int64>, from': seq<int64>)
    requires |to| == |from| == |from'|
    ensures Shifted(to, from, from') == to <==> from == from'
  {
    forall k | 0 <= k < |to|
      ensures Shifted(to, from, from')[k] == to[k] <==> from[k] == from'[k]
    {
      ShiftsOff(to[k], from[k], from'[k]);
    }
    if from == from' {
      assert Shifted(to, from, from') == to;
    }
  }

  lemma WrapShift(to: int64, from: int64, from': int64)
    ensures Wrap64(from' + Wrap64(to - from)) == Shift(to, from, from')
  {
  }

  lemma ShiftsOff(to: int64, from: int64, from': int64)
    ensures Shift(to, from, from') == to <==> from == from'
  {
  }

  // --- Rows: items one after another, their number known ---

  function RowCode<T>(code: T -> bytes, items: seq<T>): bytes {
    if items == [] then [] else code(items[0]) + RowCode(code, items[1..])
  }

  function ReadRow<T>(read: bytes -> Parsed<T>, n: nat, s: bytes): Parsed<seq<T>> {
    if n == 0 then Parsed([], s)
    else
      match read(s)
      case Truncated => Truncated
      case Parsed(t, rest) =>
        match ReadRow(read, n - 1, rest)
        case Truncated => Truncated
        case Parsed(later, rest') => Parsed([t] + later, rest')
  }

  /** If each item reads back whatever follows it, so does a row of them. */
  lemma {:induction false} RowRoundTrip<T>(code: T -> bytes, read: bytes -> Parsed<T>, items: seq<T>, rest: bytes)
    requires forall k: nat, tail: bytes :: k < |items| ==> read(code(items[k]) + tail) == Parsed(items[k], tail)
    ensures ReadRow(read, |items|, RowCode(code, items) + rest) == Parsed(items, rest)
    decreases |items|
  {
    if items == [] {
      assert RowCode(code, items) + rest == rest;
    } else {
      var first, later := code(items[0]), RowCode(code, items[1..]);
      assert first + later + rest == first + (later + rest);
      forall k: nat, tail: bytes | k < |items[1..]|
        ensures read(code(items[1..][k]) + tail) == Parsed(items[1..][k], tail)
      {
        assert items[1..][k] == items[k + 1];
      }
      RowRoundTrip(code, read, items[1..], rest);
      assert items == [items[0]] + items[1..];
    }
  }

  lemma RowFrom<T>(code: T -> bytes, items: seq<T>, k: nat, data: bytes)
    requires k < |items|
    ensures data + RowCode(code, items[k..]) == data + code(items[k]) + RowCode(code, items[k + 1..])
  {
    assert items[k..][1..] == items[k + 1..];
  }

  lemma RowEnds<T>(code: T -> bytes, items: seq<T>, data: bytes)
    ensures data + RowCode(code, items[|items|..]) == data
    ensures items[0..] == items
  {
  }

  /** A whole row, as the items read so far and then what reading on gives. */
  ghost predicate Continues<T(!new)>(whole: Parsed<seq<T>>, items: seq<T>, ahead: Parsed<seq<T>>) {
    match ahead
    case Parsed(later, rest) => whole == Parsed(items + later, rest)
    case Truncated => whole.Truncated?
  }

  lemma RowOn<T(!new)>(read: bytes -> Parsed<T>, whole: Parsed<seq<T>>, items: seq<T>, n: nat, s: bytes)
    requires n > 0 && Continues(whole, items, ReadRow(read, n, s))
    ensures match read(s)
            case Parsed(t, rest) => Continues(whole, items + [t], ReadRow(read, n - 1, rest))
            case Truncated => whole.Truncated?
  {
    if read(s).Parsed? && ReadRow(read, n - 1, read(s).rest).Parsed? {
      var t, later := read(s).value, ReadRow(read, n - 1, read(s).rest).value;
      assert items + ([t] + later) == items + [t] + later;
    }
  }

  class Writer {
    var data: bytes

    constructor ()
      ensures data == []
    {
      data := [];
    }

    method PutU8(b: byte)
      modifies this
      ensures data == old(data) + [b]
    {
      data := data + [b];
    }

    method PutData(d: bytes)
      modifies this
      ensures data == old(data) + d
    {
      data := data + d;
    }

    method PutUvarint(n: nat)
      modifies this
      ensures data == old(data) + Uvarint(n)
    {
      var left := n;
      while left >= 0x80
        invariant data + Uvarint(left) == old(data) + Uvarint(n)
      {
        assert data + Uvarint(left) == data + [left % 0x80 + 0x80] + Uvarint(left / 0x80);
        data := data + [left % 0x80 + 0x80];
        left := left / 0x80;
      }
      data := data + [left];
    }

    method PutVarint(i: int)
      modifies this
      ensures data == old(data) + Varint(i)
    {
      PutUvarint(ZigZag(i));
    }

    method PutStep(to: int64, from: int64)
      modifies this
      ensures data == old(data) + Step(to, from)
    {
      PutVarint(Wrap64(to - from));
    }

    method PutSteps(to: seq<int64>, from: seq<int64>)
      requires |to| == |from|
      modifies this
      ensures data == old(data) + Steps(to, from)
    {
      for k := 0 to |to|
        invariant data == old(data) + Steps(to[..k], from[..k])
      {
        PutStep(to[k], from[k]);
        StepsGrow(to, from, k);
      }
      assert to[..|to|] == to && from[..|to|] == from;
    }

    method PutFixed(n: nat, width: nat)
      modifies this
      ensures data == old(data) + Fixed(n, width)
    {
      var left: nat, k: nat := n, width;
      while k > 0
        invariant k <= width
        invariant data + Fixed(left, k) == old(data) + Fixed(n, width)
      {
        assert data + Fixed(left, k) == data + [left % 0x100] + Fixed(left / 0x100, k - 1);
        data := data + [left % 0x100];
        left, k := left / 0x100, k - 1;
      }
      assert data + Fixed(left, 0) == data;
    }

    method PutBlock(b: bytes)
      modifies this
      ensures data == old(data) + Block(b)
    {
      PutUvarint(|b|);
      PutData(b);
    }
  }

  /** What a read leaves: the value and the shorter rest, or the failed flag. A failed reader stays
      failed, and what a failed read gives is never used. */
  class Reader {
    const source: bytes
    var pos: nat
    var failed: bool

    ghost predicate Valid()
      reads this
    {
      pos <= |source|
    }

    function Rest(): bytes
      requires Valid()
      reads this
    {
      source[pos..]
    }

    constructor (bytes: bytes)
      ensures Valid() && source == bytes && Rest() == bytes && !failed
    {
      source, pos, failed := bytes, 0, false;
    }

    method GetU8() returns (b: byte)
      requires Valid()
      modifies this
      ensures Valid()
      ensures old(Rest()) != [] ==> b == old(Rest())[0] && Rest() == old(Rest())[1..] && failed == old(failed)
      ensures old(Rest()) == [] ==> failed
    {
      if pos == |source| {
        failed := true;
        return 0;
      }
      b := source[pos];
      pos := pos + 1;
    }

    method GetUvarint() returns (n: nat)
      requires Valid()
      modifies this
      ensures Valid()
      ensures match ReadUvarint(old(Rest()))
              case Parsed(v, rest) => n == v && Rest() == rest && failed == old(failed)
              case Truncated => failed
    {
      n := 0;
      var scale: nat := 1;
      while pos < |source| && source[pos] >= 0x80
        invariant Valid() && failed == old(failed)
        invariant match ReadUvarint(old(Rest()))
                  case Parsed(v, rest) =>
                    && ReadUvarint(Rest()).Parsed?
                    && ReadUvarint(Rest()).rest == rest
                    && v == n + scale * ReadUvarint(Rest()).value
                  case Truncated => ReadUvarint(Rest()).Truncated?
        decreases |source| - pos
      {
        ghost var before := Rest();
        var low: nat := source[pos] - 0x80;
        n := n + scale * low;
        pos := pos + 1;
        assert before[1..] == Rest();
        if ReadUvarint(before).Parsed? {
          Distribute(scale, low, ReadUvarint(Rest()).value);
        }
        scale := scale * 0x80;
      }
      if pos == |source| {
        failed := true;
        return;
      }
      n := n + scale * source[pos];
      pos := pos + 1;
    }

    lemma Distribute(scale: nat, low: nat, high: nat)
      ensures scale * (low + 0x80 * high) == scale * low + scale * 0x80 * high
    {
    }

    method GetVarint() returns (i: int)
      requires Valid()
      modifies this
      ensures Valid()
      ensures match ReadVarint(old(Rest()))
              case Parsed(v, rest) => i == v && Rest() == rest && failed == old(failed)
              case Truncated => failed
    {
      var n := GetUvarint();
      i := UnZigZag(n);
    }

    method GetStep(from: int64) returns (to: int64)
      requires Valid()
      modifies this
      ensures Valid()
      ensures match ReadStep(from, old(Rest()))
              case Parsed(v, rest) => to == v && Rest() == rest && failed == old(failed)
              case Truncated => failed
    {
      var i := GetVarint();
      to := Wrap64(from + i);
    }

    method GetSteps(from: seq<int64>) returns (to: seq<int64>)
      requires Valid()
      modifies this
      ensures Valid() && |to| == |from|
      ensures match ReadSteps(from, old(Rest()))
              case Parsed(v, rest) => to == v && Rest() == rest && failed == old(failed)
              case Truncated => failed
    {
      to := [];
      for k := 0 to |from|
        invariant Valid() && |to| == k
        invariant match ReadSteps(from[..k], old(Rest()))
                  case Parsed(v, rest) => to == v && Rest() == rest && failed == old(failed)
                  case Truncated => failed
      {
        var t := GetStep(from[k]);
        to := to + [t];
        assert from[..k + 1][..k] == from[..k];
      }
      assert from[..|from|] == from;
    }

    method GetFixed(width: nat) returns (n: nat)
      requires Valid()
      modifies this
      ensures Valid()
      ensures match ReadFixed(old(Rest()), width)
              case Parsed(v, rest) => n == v && Rest() == rest && failed == old(failed)
              case Truncated => failed
      decreases width
    {
      if width == 0 {
        return 0;
      }
      if pos == |source| {
        failed := true;
        return 0;
      }
      var low := source[pos];
      ghost var before := Rest();
      pos := pos + 1;
      assert before[1..] == Rest();
      var high := GetFixed(width - 1);
      n := low + 0x100 * high;
    }

    method GetData(n: nat) returns (d: bytes)
      requires Valid()
      modifies this
      ensures Valid()
      ensures match ReadData(old(Rest()), n)
              case Parsed(v, rest) => d == v && Rest() == rest && failed == old(failed)
              case Truncated => failed
    {
      if |source| - pos < n {
        failed := true;
        return [];
      }
      d := source[pos..pos + n];
      pos := pos + n;
    }

    method GetBlock() returns (d: bytes)
      requires Valid()
      modifies this
      ensures Valid()
      ensures match ReadBlock(old(Rest()))
              case Parsed(v, rest) => d == v && Rest() == rest && failed == old(failed)
              case Truncated => failed
    {
      var n := GetUvarint();
      d := GetData(n);
    }
  }
}
