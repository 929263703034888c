/** White space trimming, byte lengths and the request encoding that is hashed for
    idempotency. Strings are sequences of code points. */
module Text {
  /** unicode.IsSpace. */
  predicate IsSpace(c: char) {
    || c in "\t\n\U{0b}\U{0c}\r \U{85}\U{a0}\U{1680}\U{2028}\U{2029}\U{202f}\U{205f}\U{3000}"
    || '\U{2000}' <= c <= '\U{200a}'
  }

  predicate AllSpace(s: string) { forall i :: 0 <= i < |s| ==> IsSpace(s[i]) }

  function TrimLeft(s: string): (t: string)
    ensures |t| <= |s|
    ensures t != "" ==> !IsSpace(t[0])
  {
    if s != "" && IsSpace(s[0]) then TrimLeft(s[1..]) else s
  }

  function TrimRight(s: string): (t: string)
    ensures |t| <= |s|
    ensures t != "" ==> !IsSpace(t[|t| - 1]) && s[0] == t[0]
  {
    if s != "" && IsSpace(s[|s| - 1]) then TrimRight(s[..|s| - 1]) else s
  }

  /** strings.TrimSpace. */
  function Trim(s: string): (t: string)
    ensures t != "" ==> !IsSpace(t[0]) && !IsSpace(t[|t| - 1])
  {
    TrimRight(TrimLeft(s))
  }

  /** A text nothing can be trimmed from. */
  predicate Trimmed(s: string) {
    s != "" ==> !IsSpace(s[0]) && !IsSpace(s[|s| - 1])
  }

  lemma {:induction false} TrimLeftDrops(before: string, s: string)
    requires AllSpace(before)
    ensures TrimLeft(before + s) == TrimLeft(s)
  {
    if before == "" {
      assert before + s == s;
    } else {
      assert (before + s)[0] == before[0] && IsSpace(before[0]);
      assert (before + s)[1..] == before[1..] + s;
      TrimLeftDrops(before[1..], s);
    }
  }

  lemma TrimRightOfSpace(s: string, c: char)
    requires IsSpace(c)
    ensures TrimRight(s + [c]) == TrimRight(s)
  {
    assert (s + [c])[..|s|] == s;
  }

  lemma {:induction false} TrimRightDrops(s: string, after: string)
    requires AllSpace(after)
    ensures TrimRight(s + after) == TrimRight(s)
  {
    if after == "" {
      assert s + after == s;
    } else {
      var init, last := after[..|after| - 1], after[|after| - 1];
      assert IsSpace(last);
      assert s + after == (s + init) + [last];
      TrimRightOfSpace(s + init, last);
      TrimRightDrops(s, init);
    }
  }

  lemma {:induction false} TrimLeftOfAllSpace(s: string)
    requires AllSpace(s)
    ensures TrimLeft(s) == ""
  {
    if s != "" {
      assert IsSpace(s[0]);
      TrimLeftOfAllSpace(s[1..]);
    }
  }

  /** Trimming removes exactly the white space around a trimmed core. */
  lemma TrimFindsCore(before: string, core: string, after: string)
    requires AllSpace(before) && AllSpace(after) && Trimmed(core)
    ensures Trim(before + core + after) == core
  {
    assert before + core + after == before + (core + after);
    TrimLeftDrops(before, core + after);
    if core == "" {
      assert core + after == after;
      TrimLeftOfAllSpace(after);
    } else {
      assert (core + after)[0] == core[0];
      TrimRightDrops(core, after);
    }
  }

  lemma {:induction false} TrimLeftKeepsEnd(s: string, after: string)
    requires TrimLeft(s) != ""
    ensures TrimLeft(s + after) == TrimLeft(s) + after
  {
    assert (s + after)[0] == s[0];
    if IsSpace(s[0]) {
      assert (s + after)[1..] == s[1..] + after;
      TrimLeftKeepsEnd(s[1..], after);
    }
  }

  lemma {:induction false} TrimLeftEmpty(s: string)
    requires TrimLeft(s) == ""
    ensures AllSpace(s)
  {
    if s != "" {
      TrimLeftEmpty(s[1..]);
      assert s == [s[0]] + s[1..];
    }
  }

  /** White space around any text, trimmed or not, makes no difference to trimming it. */
  lemma TrimIgnoresPadding(before: string, s: string, after: string)
    requires AllSpace(before) && AllSpace(after)
    ensures Trim(before + s + after) == Trim(s)
  {
    assert before + s + after == before + (s + after);
    TrimLeftDrops(before, s + after);
    if TrimLeft(s) == "" {
      TrimLeftEmpty(s);
      TrimLeftOfAllSpace(s + after);
    } else {
      TrimLeftKeepsEnd(s, after);
      TrimRightDrops(TrimLeft(s), after);
    }
  }

  /** Every text is a trimmed core between white space, and trimming finds the core. */
  lemma {:induction false} TrimSplits(s: string) returns (before: string, core: string, after: string)
    ensures s == before + core + after && AllSpace(before) && AllSpace(after) && Trimmed(core) && Trim(s) == core
    decreases |s|
  {
    hide IsSpace, Trim;
    if s != "" && IsSpace(s[0]) {
      before, core, after := TrimSplits(s[1..]);
      assert s == [s[0]] + s[1..];
      assert [s[0]] + (before + core + after) == [s[0]] + before + core + after;
      before := [s[0]] + before;
    } else if s != "" && IsSpace(s[|s| - 1]) {
      before, core, after := TrimSplits(s[..|s| - 1]);
      assert s == s[..|s| - 1] + [s[|s| - 1]];
      assert before + core + after + [s[|s| - 1]] == before + core + (after + [s[|s| - 1]]);
      after := after + [s[|s| - 1]];
    } else {
      before, core, after := "", s, "";
      assert "" + s + "" == s;
    }
    TrimFindsCore(before, core, after);
  }

  /** Trimming leaves nothing exactly of white space. */
  lemma TrimEmptyIff(s: string)
    ensures Trim(s) == "" <==> AllSpace(s)
  {
    var before, core, after := TrimSplits(s);
    if core != "" {
      assert s[|before|] == core[0];
    }
  }

  /** len of a Go string: its UTF-8 bytes. */
  function ByteLength(s: string): nat {
    if s == "" then 0 else Utf8Width(s[0]) + ByteLength(s[1..])
  }

  function Utf8Width(c: char): nat {
    if c < '\U{80}' then 1 else if c < '\U{800}' then 2 else if c < '\U{10000}' then 3 else 4
  }

  // ---------------------------------------------------------------- the hashed encoding

  const NUL: char := '\0'

  predicate NulFree(s: string) { NUL !in s }

  predicate AllNulFree(parts: seq<string>) { forall i :: 0 <= i < |parts| ==> NulFree(parts[i]) }

  /** The bytes fed to the hash: every part followed by a zero byte. The hash is taken
      as collision-free, so the encoding stands for its digest. */
  function Encode(parts: seq<string>): string {
    if parts == [] then "" else Encode(parts[..|parts| - 1]) + parts[|parts| - 1] + [NUL]
  }

  method CreatePayoutRequestHash(parts: seq<string>) returns (hash: string)
    ensures hash == Encode(parts)
  {
    hash := "";
    for i := 0 to |parts|
      invariant hash == Encode(parts[..i])
    {
      assert parts[..i + 1][..i] == parts[..i];
      hash := hash + parts[i];
      hash := hash + [NUL];
    }
    assert parts[..|parts|] == parts;
  }

  lemma {:induction false} EncodeFront(parts: seq<string>)
    requires parts != []
    ensures Encode(parts) == parts[0] + [NUL] + Encode(parts[1..])
  {
    var init, last := parts[..|parts| - 1], parts[|parts| - 1];
    if |parts| == 1 {
      assert Encode(init) == "" && Encode(parts[1..]) == "";
    } else {
      EncodeFront(init);
      assert init[1..] == parts[1..][..|parts| - 2];
    }
  }

  lemma {:induction false} NulCount(parts: seq<string>)
    requires parts != []
    ensures multiset(Encode(parts))[NUL] >= |parts|
  {
    if |parts| > 1 {
      NulCount(parts[..|parts| - 1]);
    }
  }

  lemma NulFreeCount(s: string)
    requires NulFree(s)
    ensures multiset(s)[NUL] == 0
  {
  }

  /** When the first part of one list is free of the zero byte, the other list's first
      part cannot be shorter and continue past it, nor be cut before it. */
  lemma FirstPartsAgree(a: string, restA: string, b: string, restB: string)
    requires NulFree(a)
    requires a + [NUL] + restA == b + [NUL] + restB
    ensures |a| <= |b|
    ensures |a| == |b| ==> a == b && restA == restB
    ensures |a| < |b| ==> b[|a|] == NUL && b[..|a|] == a && restA == b[|a| + 1..] + [NUL] + restB
  {
    var s, t := a + [NUL] + restA, b + [NUL] + restB;
    assert t[|b|] == NUL;
    if |b| < |a| {
      assert false;
    } else {
      assert s[..|a|] == a && t[..|a|] == b[..|a|];
      assert s[|a| + 1..] == restA;
      if |a| == |b| {
        assert t[|a| + 1..] == restB;
      } else {
        assert s[|a|] == NUL && t[|a|] == b[|a|];
        assert t[|a| + 1..] == b[|a| + 1..] + [NUL] + restB;
      }
    }
  }

  lemma {:induction false} NulFreeListCount(parts: seq<string>)
    requires AllNulFree(parts)
    ensures multiset(Encode(parts))[NUL] == |parts|
  {
    if parts != [] {
      NulFreeListCount(parts[..|parts| - 1]);
      NulFreeCount(parts[|parts| - 1]);
    }
  }

  /** The encoding separates lists of one length, provided one of them is free of the
      zero byte. */
  lemma {:induction false} EncodeSeparates(a: seq<string>, b: seq<string>)
    requires |a| == |b| && AllNulFree(a) && Encode(a) == Encode(b)
    ensures a == b
  {
    if a != [] {
      EncodeFront(a);
      EncodeFront(b);
      FirstPartsAgree(a[0], Encode(a[1..]), b[0], Encode(b[1..]));
      if |a[0]| < |b[0]| {
        NulFreeListCount(a[1..]);
        ExtraNul(b[0][|a[0]| + 1..], b[1..], Encode(a[1..]));
        assert false;
      }
      EncodeSeparates(a[1..], b[1..]);
      assert a == [a[0]] + a[1..] && b == [b[0]] + b[1..];
    }
  }

  lemma ExtraNul(tail: string, parts: seq<string>, s: string)
    requires s == tail + [NUL] + Encode(parts)
    ensures multiset(s)[NUL] > |parts|
  {
    if parts != [] {
      NulCount(parts);
    }
    assert multiset(s) == multiset(tail) + multiset([NUL]) + multiset(Encode(parts));
  }

  // ---------------------------------------------------------------- when the encoding separates

  lemma EncodeMore(parts: seq<string>, last: string)
    ensures Encode(parts + [last]) == Encode(parts) + (last + [NUL])
  {
    assert (parts + [last])[..|parts|] == parts;
    assert Encode(parts) + last + [NUL] == Encode(parts) + (last + [NUL]);
  }

  lemma {:induction false} EncodeConcat(a: seq<string>, b: seq<string>)
    ensures Encode(a + b) == Encode(a) + Encode(b)
  {
    if b == [] {
      assert a + b == a;
    } else {
      var init := b[..|b| - 1];
      EncodeConcat(a, init);
      EncodeMore(a + init, b[|b| - 1]);
      EncodeMore(init, b[|b| - 1]);
      assert a + b == a + init + [b[|b| - 1]] && b == init + [b[|b| - 1]];
      hide Encode;
      var tail := b[|b| - 1] + [NUL];
      assert Encode(a) + Encode(init) + tail == Encode(a) + (Encode(init) + tail);
    }
  }

  lemma EncodeOne(x: string)
    ensures Encode([x]) == x + [NUL]
  {
    assert [x][..0] == [];
    assert Encode([x]) == Encode([x][..0]) + x + [NUL] == "" + x + [NUL];
  }

  lemma EncodePair(x: string, y: string)
    ensures Encode([x, y]) == x + [NUL] + y + [NUL]
  {
    EncodeOne(x);
    assert [x, y][..1] == [x];
    assert Encode([x, y]) == Encode([x, y][..1]) + y + [NUL];
  }

  lemma EncodeAround(before: seq<string>, x: string, y: string, after: seq<string>)
    ensures Encode(before + [x, y] + after) == Encode(before) + (x + [NUL] + y + [NUL]) + Encode(after)
  {
    EncodeConcat(before + [x, y], after);
    EncodeConcat(before, [x, y]);
    EncodePair(x, y);
  }

  /** The zero byte between two neighbours can be traded for one inside either of them. */
  lemma SameEncoding(before: seq<string>, p: string, q: string, r: string, after: seq<string>)
    ensures Encode(before + [p + [NUL] + q, r] + after) == Encode(before + [p, q + [NUL] + r] + after)
  {
    EncodeAround(before, p + [NUL] + q, r, after);
    EncodeAround(before, p, q + [NUL] + r, after);
    assert p + [NUL] + q + [NUL] + r + [NUL] == p + [NUL] + (q + [NUL] + r) + [NUL];
  }

  /** A part with a zero byte and a neighbour can be split elsewhere. */
  lemma Resplit(a: seq<string>, i: nat, j: nat) returns (b: seq<string>)
    requires |a| >= 2 && i < |a| && j < |a[i]| && a[i][j] == NUL
    ensures |b| == |a| && b != a && Encode(b) == Encode(a)
  {
    var p, q := a[i][..j], a[i][j + 1..];
    assert a[i] == p + [NUL] + q;
    if i + 1 < |a| {
      b := a[..i] + [p, q + [NUL] + a[i + 1]] + a[i + 2..];
      SameEncoding(a[..i], p, q, a[i + 1], a[i + 2..]);
      assert a == a[..i] + [a[i], a[i + 1]] + a[i + 2..];
      assert b[i] == p;
    } else {
      b := a[..i - 1] + [a[i - 1] + [NUL] + p, q] + [];
      SameEncoding(a[..i - 1], a[i - 1], p, q, []);
      assert a == a[..i - 1] + [a[i - 1], a[i]] + [];
      assert b[i] == q;
    }
  }

  ghost predicate Separated(a: seq<string>) {
    forall b :: |b| == |a| && Encode(b) == Encode(a) ==> b == a
  }

  lemma SinglesSeparated(a: seq<string>, b: seq<string>)
    requires |a| == |b| <= 1 && Encode(a) == Encode(b)
    ensures a == b
  {
    if |a| == 1 {
      EncodeOne(a[0]);
      EncodeOne(b[0]);
      assert a == [a[0]] && b == [b[0]];
      assert a[0] + [NUL] == b[0] + [NUL];
      assert (a[0] + [NUL])[..|a[0]|] == a[0] && (b[0] + [NUL])[..|b[0]|] == b[0];
    }
  }

  /** No other list of its length has a list's encoding if and only if its parts are free
      of the zero byte or it has at most one part. */
  lemma SeparatedIff(a: seq<string>)
    ensures Separated(a) <==> AllNulFree(a) || |a| <= 1
  {
    if AllNulFree(a) || |a| <= 1 {
      forall b | |b| == |a| && Encode(b) == Encode(a) ensures b == a {
        if AllNulFree(a) {
          EncodeSeparates(a, b);
        } else {
          SinglesSeparated(a, b);
        }
      }
    } else {
      var i :| 0 <= i < |a| && !NulFree(a[i]);
      var j :| 0 <= j < |a[i]| && a[i][j] == NUL;
      var b := Resplit(a, i, j);
    }
  }

  lemma {:induction false} ByteLengthAppend(s: string, t: string)
    ensures ByteLength(s + t) == ByteLength(s) + ByteLength(t)
  {
    if s == "" {
      assert s + t == t;
    } else {
      assert (s + t)[1..] == s[1..] + t;
      ByteLengthAppend(s[1..], t);
    }
  }
}
