/**
 Names of sharded model files, "model-00001-of-00003.gguf", and the check that a
 repository's listing holds a complete set.
 */
module ShardNames {
  import opened Options
  import opened Strings

  // ----- numbers as text -----

  predicate IsDigit(c: char) {
    '0' <= c <= '9'
  }

  predicate AllDigits(s: string) {
    forall i :: 0 <= i < |s| ==> IsDigit(s[i])
  }

  function Digit(d: nat): (c: char)
    requires d < 10
    ensures IsDigit(c)
  {
    ('0' as int + d) as char
  }

  // n in decimal, with leading zeros up to the given width
  function Padded(n: nat, width: nat): (s: string)
    ensures s != "" && AllDigits(s)
    decreases n + width
  {
    if n < 10 && width <= 1 then [Digit(n)]
    else Padded(n / 10, if width > 0 then width - 1 else 0) + [Digit(n % 10)]
  }

  function ValueOf(s: string): nat
    requires AllDigits(s)
  {
    if s == "" then 0 else 10 * ValueOf(s[..|s| - 1]) + (s[|s| - 1] as int - '0' as int)
  }

  // str::parse::<u32>
  function ParseU32(s: string): Option<nat> {
    var digits := if s != "" && s[0] == '+' then s[1..] else s;
    if digits != "" && AllDigits(digits) && ValueOf(digits) < 0x1_0000_0000 then Some(ValueOf(digits)) else None
  }

  lemma {:induction false} ValueOfPadded(n: nat, width: nat)
    ensures ValueOf(Padded(n, width)) == n
    decreases n + width
  {
    var s := Padded(n, width);
    if n >= 10 || width > 1 {
      ValueOfPadded(n / 10, if width > 0 then width - 1 else 0);
      assert s[..|s| - 1] == Padded(n / 10, if width > 0 then width - 1 else 0);
    } else {
      assert s[..0] == "";
    }
  }

  lemma ParsePadded(n: nat, width: nat)
    ensures ParseU32(Padded(n, width)) == if n < 0x1_0000_0000 then Some(n) else None
  {
    ValueOfPadded(n, width);
  }

  // ----- parsing names -----

  function AfterLast(s: string, c: char): string {
    if s == "" || s[|s| - 1] == c then "" else AfterLast(s[..|s| - 1], c) + [s[|s| - 1]]
  }

  function TrimEndMatches(s: string, m: string): string
    requires m != ""
  {
    if |m| <= |s| && s[|s| - |m|..] == m then TrimEndMatches(s[..|s| - |m|], m) else s
  }

  function RFindTo(s: string, m: string, last: nat): (at: Option<nat>)
    requires last <= |s|
    ensures at.Some? ==> OccursAt(s, m, at.value)
  {
    if OccursAt(s, m, last) then Some(last)
    else if last == 0 then None
    else RFindTo(s, m, last - 1)
  }

  function RFind(s: string, m: string): (at: Option<nat>)
    ensures at.Some? ==> OccursAt(s, m, at.value)
  {
    RFindTo(s, m, |s|)
  }

  function Stem(filename: string): string {
    TrimEndMatches(AfterLast(filename, '/'), ".gguf")
  }

  function ParseShardIndex(filename: string): Option<nat> {
    var stem := Stem(filename);
    var pos := RFind(stem, "-of-");
    if pos.None? then None
    else
      var digits := AfterLast(stem[..pos.value], '-');
      if digits != "" && AllDigits(digits) then ParseU32(digits) else None
  }

  function ParseShardTotal(filename: string): Option<nat> {
    var stem := Stem(filename);
    var pos := RFind(stem, "-of-");
    if pos.None? then None else ParseU32(stem[pos.value + 4..])
  }

  // ----- printing names -----

  function Numbered(prefix: string, i: nat, total: nat): string {
    prefix + "-" + Padded(i, 5) + "-of-" + Padded(total, 5)
  }

  // The name of shard i, which may start with directories.
  function ShardName(prefix: string, i: nat, total: nat): string {
    Numbered(prefix, i, total) + ".gguf"
  }

  lemma {:induction false} AfterLastOf(a: string, c: char, b: string)
    requires c !in b
    ensures AfterLast(a + [c] + b, c) == b
    decreases |b|
  {
    var s := a + [c] + b;
    if b != "" {
      assert s[..|s| - 1] == a + [c] + b[..|b| - 1];
      AfterLastOf(a, c, b[..|b| - 1]);
    }
  }

  lemma {:induction false} AfterLastKeepsTail(s: string, c: char, tail: string)
    requires c !in tail
    ensures AfterLast(s + tail, c) == AfterLast(s, c) + tail
    decreases |tail|
  {
    if tail == "" {
      assert s + tail == s;
    } else {
      assert (s + tail)[..|s + tail| - 1] == s + tail[..|tail| - 1];
      AfterLastKeepsTail(s, c, tail[..|tail| - 1]);
    }
  }

  lemma {:induction false} RFindLast(s: string, m: string, i: nat, last: nat)
    requires OccursAt(s, m, i) && i <= last <= |s|
    requires forall j: nat :: i < j <= last ==> !OccursAt(s, m, j)
    ensures RFindTo(s, m, last) == Some(i)
    decreases last
  {
    if i < last {
      RFindLast(s, m, i, last - 1);
    }
  }

  lemma TrimOnce(stem: string)
    requires stem == "" || IsDigit(stem[|stem| - 1])
    ensures TrimEndMatches(stem + ".gguf", ".gguf") == stem
  {
  }

  // What the parsers see of a printed name has no directories and no extension.
  lemma StemOfName(prefix: string, i: nat, total: nat)
    ensures Stem(ShardName(prefix, i, total)) == Numbered(AfterLast(prefix, '/'), i, total)
  {
    AfterLastKeepsTail(prefix, '/', "-");
    AfterLastKeepsTail(prefix + "-", '/', Padded(i, 5));
    AfterLastKeepsTail(prefix + "-" + Padded(i, 5), '/', "-of-");
    AfterLastKeepsTail(prefix + "-" + Padded(i, 5) + "-of-", '/', Padded(total, 5));
    AfterLastKeepsTail(Numbered(prefix, i, total), '/', ".gguf");
    TrimOnce(Numbered(AfterLast(prefix, '/'), i, total));
  }

  lemma SplitOfStem(before: string, digits: string)
    requires digits != "" && AllDigits(digits)
    ensures RFind(before + "-of-" + digits, "-of-") == Some(|before|)
  {
    var stem, pos := before + "-of-" + digits, |before|;
    assert stem[pos..pos + 4] == "-of-";
    forall j: nat | pos < j <= |stem| ensures !OccursAt(stem, "-of-", j) {
      if j + 4 <= |stem| {
        var found := stem[j..j + 4];
        assert found[0] == stem[j] && found[1] == stem[j + 1];
        if j < pos + 4 {
          assert stem[pos + 1] == 'o' && stem[pos + 2] == 'f' && stem[pos + 4] == digits[0];
        } else {
          assert stem[j] == digits[j - (pos + 4)];
        }
      }
    }
    RFindLast(stem, "-of-", pos, |stem|);
  }

  lemma ParseStem(base: string, i: nat, total: nat)
    ensures var stem, before := Numbered(base, i, total), base + "-" + Padded(i, 5);
            && RFind(stem, "-of-") == Some(|before|)
            && AfterLast(stem[..|before|], '-') == Padded(i, 5) && stem[|before| + 4..] == Padded(total, 5)
  {
    var stem, before := Numbered(base, i, total), base + "-" + Padded(i, 5);
    SplitOfStem(before, Padded(total, 5));
    assert stem[..|before|] == before && stem[|before| + 4..] == Padded(total, 5);
    AfterLastOf(base, '-', Padded(i, 5));
  }

  /** Parsing a printed name gives back its numbers, as far as they fit u32. */
  lemma ParseUndoesPrint(prefix: string, i: nat, total: nat)
    ensures ParseShardIndex(ShardName(prefix, i, total)) == if i < 0x1_0000_0000 then Some(i) else None
    ensures ParseShardTotal(ShardName(prefix, i, total)) == if total < 0x1_0000_0000 then Some(total) else None
  {
    StemOfName(prefix, i, total);
    ParseStem(AfterLast(prefix, '/'), i, total);
    ParsePadded(i, 5);
    ParsePadded(total, 5);
  }

  // ----- the order of names -----

  // Lexicographic order, as String's cmp has it.
  predicate Leq(a: string, b: string) {
    a == "" || (b != "" && (a[0] < b[0] || (a[0] == b[0] && Leq(a[1..], b[1..]))))
  }

  lemma {:induction false} LeqTotal(a: string, b: string)
    ensures Leq(a, b) || Leq(b, a)
  {
    if a != "" && b != "" && a[0] == b[0] {
      LeqTotal(a[1..], b[1..]);
    }
  }

  lemma {:induction false} LeqTransitive(a: string, b: string, c: string)
    requires Leq(a, b) && Leq(b, c)
    ensures Leq(a, c)
  {
    if a != "" && a[0] == b[0] && b[0] == c[0] {
      LeqTransitive(a[1..], b[1..], c[1..]);
    }
  }

  lemma {:induction false} LeqAntisymmetric(a: string, b: string)
    requires Leq(a, b) && Leq(b, a)
    ensures a == b
  {
    if a != "" {
      LeqAntisymmetric(a[1..], b[1..]);
      assert a == [a[0]] + a[1..] && b == [b[0]] + b[1..];
    }
  }

  // A common start does not matter.
  lemma {:induction false} LeqAfterPrefix(p: string, a: string, b: string)
    ensures Leq(p + a, p + b) == Leq(a, b)
  {
    if p == "" {
      assert p + a == a && p + b == b;
    } else {
      LeqAfterPrefix(p[1..], a, b);
      assert (p + a)[1..] == p[1..] + a && (p + b)[1..] == p[1..] + b;
    }
  }

  // Where two texts of one length differ, what follows does not matter.
  lemma {:induction false} LeqDecided(a: string, b: string, x: string, y: string)
    requires |a| == |b| && a != b
    ensures Leq(a + x, b + y) == Leq(a, b)
  {
    assert a == [a[0]] + a[1..] && b == [b[0]] + b[1..];
    assert (a + x)[1..] == a[1..] + x && (b + y)[1..] == b[1..] + y;
    if a[0] == b[0] {
      LeqDecided(a[1..], b[1..], x, y);
    }
  }

  function Power10(w: nat): (p: nat)
    ensures p > 0
  {
    if w == 0 then 1 else 10 * Power10(w - 1)
  }

  lemma {:induction false} PaddedLength(n: nat, width: nat)
    requires 0 < width && n < Power10(width)
    ensures |Padded(n, width)| == width
  {
    if width > 1 {
      PaddedLength(n / 10, width - 1);
    } else {
      assert Power10(1) == 10 * Power10(0);
    }
  }

  // Numbers of one width are ordered as their texts are.
  lemma {:induction false} PaddedOrder(i: nat, j: nat, width: nat)
    requires 0 < width && i < Power10(width) && j < Power10(width)
    ensures Leq(Padded(i, width), Padded(j, width)) <==> i <= j
  {
    if width == 1 {
      assert Power10(1) == 10 * Power10(0);
    } else {
      var a, b := Padded(i / 10, width - 1), Padded(j / 10, width - 1);
      PaddedOrder(i / 10, j / 10, width - 1);
      PaddedLength(i / 10, width - 1);
      PaddedLength(j / 10, width - 1);
      if i / 10 == j / 10 {
        LeqAfterPrefix(a, [Digit(i % 10)], [Digit(j % 10)]);
      } else {
        ValueOfPadded(i / 10, width - 1);
        ValueOfPadded(j / 10, width - 1);
        LeqDecided(a, b, [Digit(i % 10)], [Digit(j % 10)]);
      }
    }
  }

  lemma FiveDigits(i: nat)
    requires i <= 99999
    ensures i < Power10(5) && |Padded(i, 5)| == 5
  {
    assert Power10(2) == 100 && Power10(4) == 10000;
    PaddedLength(i, 5);
  }

  /** Names of up to 99999 shards are ordered by index. */
  lemma NamesAreOrdered(prefix: string, i: nat, j: nat, total: nat)
    requires i <= 99999 && j <= 99999
    ensures Leq(ShardName(prefix, i, total), ShardName(prefix, j, total)) <==> i <= j
  {
    var rest := "-of-" + Padded(total, 5) + ".gguf";
    assert ShardName(prefix, i, total) == (prefix + "-") + (Padded(i, 5) + rest);
    assert ShardName(prefix, j, total) == (prefix + "-") + (Padded(j, 5) + rest);
    LeqAfterPrefix(prefix + "-", Padded(i, 5) + rest, Padded(j, 5) + rest);
    FiveDigits(i);
    FiveDigits(j);
    PaddedOrder(i, j, 5);
    if Padded(i, 5) == Padded(j, 5) {
      ValueOfPadded(i, 5);
      ValueOfPadded(j, 5);
      LeqTotal(Padded(i, 5) + rest, Padded(j, 5) + rest);
    } else {
      LeqDecided(Padded(i, 5), Padded(j, 5), rest, rest);
    }
  }

  lemma SixDigitsBeforeFive(rest: string)
    ensures !Leq("10001" + rest, "100000" + rest)
  {
    var same, five, six := "1000", "1" + rest, "00" + rest;
    assert "10001" + rest == same + five;
    assert "100000" + rest == same + six;
    LeqAfterPrefix(same, five, six);
  }

  /** The first name with a sixth digit comes too early. */
  lemma SixDigitsComeFirst(prefix: string, total: nat)
    ensures !Leq(ShardName(prefix, 10001, total), ShardName(prefix, 100000, total))
  {
    var rest := "-of-" + Padded(total, 5) + ".gguf";
    var five, six := Padded(10001, 5), Padded(100000, 5);
    assert ShardName(prefix, 10001, total) == (prefix + "-") + (five + rest);
    assert ShardName(prefix, 100000, total) == (prefix + "-") + (six + rest);
    LeqAfterPrefix(prefix + "-", five + rest, six + rest);
    PaddedByDigits();
    SixDigitsBeforeFive(rest);
  }

  lemma PaddedByDigits()
    ensures Padded(10001, 5) == "10001" && Padded(100000, 5) == "100000"
  {
    assert Padded(1, 1) == "1";
    assert Padded(10, 2) == "10";
    assert Padded(100, 3) == "100";
    assert Padded(1000, 4) == "1000";
    assert Padded(1, 0) == "1";
    assert Padded(10, 1) == "10";
    assert Padded(100, 2) == "100";
    assert Padded(1000, 3) == "1000";
    assert Padded(10000, 4) == "10000";
  }
}
