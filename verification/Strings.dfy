/** Searching and trimming text, as Rust's str does. */
module Strings {
  import opened Options

  predicate OccursAt(s: string, m: string, i: nat) {
    i + |m| <= |s| && s[i..i + |m|] == m
  }

  function FindFrom(s: string, m: string, from: nat): (at: Option<nat>)
    requires from <= |s|
    ensures at.Some? ==> at.value + |m| <= |s|
    decreases |s| - from
  {
    if OccursAt(s, m, from) then Some(from)
    else if from == |s| then None
    else FindFrom(s, m, from + 1)
  }

  // The first occurrence of m in s.
  function Find(s: string, m: string): (at: Option<nat>)
    ensures at.Some? ==> at.value + |m| <= |s|
  {
    FindFrom(s, m, 0)
  }

  ghost predicate IsFirst(s: string, m: string, at: Option<nat>) {
    if at.Some? then OccursAt(s, m, at.value) && forall j: nat :: j < at.value ==> !OccursAt(s, m, j)
    else forall j: nat :: !OccursAt(s, m, j)
  }

  lemma {:induction false} FindFromFirst(s: string, m: string, from: nat)
    requires from <= |s| && forall j: nat :: j < from ==> !OccursAt(s, m, j)
    ensures IsFirst(s, m, FindFrom(s, m, from))
    decreases |s| - from
  {
    if !OccursAt(s, m, from) && from < |s| {
      FindFromFirst(s, m, from + 1);
    }
  }

  /** Find gives the first occurrence, and nothing else is one. */
  lemma FindIsFirst(s: string, m: string, at: Option<nat>)
    ensures Find(s, m) == at <==> IsFirst(s, m, at)
  {
    FindFromFirst(s, m, 0);
    var found := Find(s, m);
    if IsFirst(s, m, at) && found.Some? {
      assert at.Some? && !(found.value < at.value) && !(at.value < found.value);
    }
  }

  // str::split_once: what stands before and after the first occurrence of m.
  function SplitOnce(s: string, m: string): (r: Option<(string, string)>)
    ensures r.Some? ==> s == r.value.0 + m + r.value.1
  {
    var at := Find(s, m);
    if at.None? then None
    else
      assert OccursAt(s, m, at.value) by { FindIsFirst(s, m, at); }
      Some((s[..at.value], s[at.value + |m|..]))
  }

  lemma SplitOnceAt(before: string, m: string, after: string)
    requires Find(before + m + after, m) == Some(|before|)
    ensures SplitOnce(before + m + after, m) == Some((before, after))
  {
    var s := before + m + after;
    assert s[..|before|] == before && s[|before| + |m|..] == after;
  }

  // Unicode White_Space, which str::trim removes.
  predicate IsSpace(c: char) {
    '\t' <= c <= '\r' || c == ' ' || c == '\U{85}' || c == '\U{A0}' || c == '\U{1680}'
    || '\U{2000}' <= c <= '\U{200A}' || c in {'\U{2028}', '\U{2029}', '\U{202F}', '\U{205F}', '\U{3000}'}
  }

  function Trim(text: string): string {
    if text == "" then ""
    else if IsSpace(text[0]) then Trim(text[1..])
    else if IsSpace(text[|text| - 1]) then Trim(text[..|text| - 1])
    else text
  }

  function StripPrefix(s: string, p: char): string {
    if s != "" && s[0] == p then s[1..] else s
  }

  function StripSuffix(s: string, p: char): string {
    if s != "" && s[|s| - 1] == p then s[..|s| - 1] else s
  }
}
