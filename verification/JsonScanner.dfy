/**
 Finding JSON values embedded in generated text.

 The scanner tries every opening brace and bracket, counts only that bracket
 kind outside strings, and cuts the text where the count first returns to zero.
 Proved against a printer for the grammar of RFC 8259: the cut falls exactly at
 the end of every object and array, whatever surrounds it.
 */
module JsonScanner {
  import opened Options
  import opened Strings

  // ----- JSON texts (RFC 8259, sections 2 and 7) -----

  datatype StrChar =
    | Plain(c: char)
    | Escape(c: char)
    | Unicode(d1: char, d2: char, d3: char, d4: char)

  datatype Json =
    | Scalar(text: string)           // true, false, null or a number
    | Str(chars: seq<StrChar>)
    | EmptyArr(ws: string)
    | Arr(elements: Elements)
    | EmptyObj(ws: string)
    | Obj(members: Members)

  // A value with the whitespace around it.
  datatype Padded = Padded(before: string, json: Json, after: string)

  datatype Elements = LastElement(value: Padded) | MoreElements(value: Padded, rest: Elements)

  datatype Members =
    | LastMember(before: string, key: seq<StrChar>, after: string, value: Padded)
    | MoreMembers(before: string, key: seq<StrChar>, after: string, value: Padded, rest: Members)

  predicate IsWs(s: string) {
    forall i :: 0 <= i < |s| ==> s[i] in {' ', '\t', '\n', '\r'}
  }

  predicate IsHexDigit(c: char) {
    '0' <= c <= '9' || 'a' <= c <= 'f' || 'A' <= c <= 'F'
  }

  predicate ValidChar(c: StrChar) {
    match c
    case Plain(p) => p != '"' && p != '\\' && ' ' <= p
    case Escape(e) => e in {'"', '\\', '/', 'b', 'f', 'n', 'r', 't'}
    case Unicode(d1, d2, d3, d4) => IsHexDigit(d1) && IsHexDigit(d2) && IsHexDigit(d3) && IsHexDigit(d4)
  }

  predicate ValidString(chars: seq<StrChar>) {
    forall i :: 0 <= i < |chars| ==> ValidChar(chars[i])
  }

  // Literals and numbers use none but these characters.
  predicate IsScalarText(s: string) {
    forall i :: 0 <= i < |s| ==> 'a' <= s[i] <= 'z' || '0' <= s[i] <= '9' || s[i] in {'-', '+', '.', 'E'}
  }

  predicate Valid(j: Json) {
    match j
    case Scalar(text) => IsScalarText(text)
    case Str(chars) => ValidString(chars)
    case EmptyArr(ws) => IsWs(ws)
    case Arr(elements) => ValidElements(elements)
    case EmptyObj(ws) => IsWs(ws)
    case Obj(members) => ValidMembers(members)
  }

  predicate ValidPadded(p: Padded) {
    IsWs(p.before) && Valid(p.json) && IsWs(p.after)
  }

  predicate ValidElements(e: Elements) {
    ValidPadded(e.value) && (e.MoreElements? ==> ValidElements(e.rest))
  }

  predicate ValidMembers(m: Members) {
    && IsWs(m.before) && ValidString(m.key) && IsWs(m.after) && ValidPadded(m.value)
    && (m.MoreMembers? ==> ValidMembers(m.rest))
  }

  function PrintChar(c: StrChar): string {
    match c
    case Plain(p) => [p]
    case Escape(e) => ['\\', e]
    case Unicode(d1, d2, d3, d4) => ['\\', 'u', d1, d2, d3, d4]
  }

  function PrintChars(chars: seq<StrChar>): string {
    if chars == [] then "" else PrintChar(chars[0]) + PrintChars(chars[1..])
  }

  function PrintString(chars: seq<StrChar>): string {
    "\"" + PrintChars(chars) + "\""
  }

  function Print(j: Json): string {
    match j
    case Scalar(text) => text
    case Str(chars) => PrintString(chars)
    case EmptyArr(ws) => "[" + ws + "]"
    case Arr(elements) => "[" + PrintElements(elements) + "]"
    case EmptyObj(ws) => "{" + ws + "}"
    case Obj(members) => "{" + PrintMembers(members) + "}"
  }

  function PrintPadded(p: Padded): string {
    p.before + Print(p.json) + p.after
  }

  function PrintElements(e: Elements): string {
    match e
    case LastElement(value) => PrintPadded(value)
    case MoreElements(value, rest) => PrintPadded(value) + "," + PrintElements(rest)
  }

  function PrintMembers(m: Members): string {
    var first := m.before + PrintString(m.key) + m.after + ":" + PrintPadded(m.value);
    if m.LastMember? then first else first + "," + PrintMembers(m.rest)
  }

  // ----- the scanner -----

  datatype Brackets = Brackets(open: char, close: char)

  const Braces := Brackets('{', '}')
  const Squares := Brackets('[', ']')

  predicate IsKind(k: Brackets) {
    k == Braces || k == Squares
  }

  datatype Scan = Scan(depth: int, inString: bool, escaped: bool)

  function Feed(s: Scan, ch: char, k: Brackets): Scan {
    if s.escaped then s.(escaped := false)
    else if ch == '\\' && s.inString then s.(escaped := true)
    else if ch == '"' then s.(inString := !s.inString)
    else if s.inString then s
    else if ch == k.open then s.(depth := s.depth + 1)
    else if ch == k.close then s.(depth := s.depth - 1)
    else s
  }

  // The character is a closing bracket that brings the depth to zero.
  predicate Closes(s: Scan, ch: char, k: Brackets) {
    !s.escaped && !s.inString && ch != '"' && ch != k.open && ch == k.close && s.depth == 1
  }

  // The end of the candidate, if the scan that has reached i in state s finds one.
  function EndFrom(text: string, i: nat, s: Scan, k: Brackets): (end: Option<nat>)
    requires i <= |text|
    ensures end.Some? ==> i < end.value <= |text| && text[end.value - 1] == k.close
    decreases |text| - i
  {
    if i == |text| then None
    else if Closes(s, text[i], k) then Some(i + 1)
    else EndFrom(text, i + 1, Feed(s, text[i], k), k)
  }

  const Start := Scan(0, false, false)

  function EndOf(text: string, start: nat, k: Brackets): (end: Option<nat>)
    requires start <= |text|
    ensures end.Some? ==> start < end.value <= |text|
  {
    EndFrom(text, start, Start, k)
  }

  // The state after w, if no character of w closes.
  function Walk(s: Scan, w: string, k: Brackets): Option<Scan>
    decreases |w|
  {
    if w == "" then Some(s)
    else if Closes(s, w[0], k) then None
    else Walk(Feed(s, w[0], k), w[1..], k)
  }

  lemma {:induction false} WalkAppend(s: Scan, a: string, b: string, k: Brackets)
    requires Walk(s, a, k).Some?
    ensures Walk(s, a + b, k) == Walk(Walk(s, a, k).value, b, k)
    decreases |a|
  {
    if a == "" {
      assert a + b == b;
    } else {
      assert (a + b)[1..] == a[1..] + b;
      WalkAppend(Feed(s, a[0], k), a[1..], b, k);
    }
  }

  lemma {:induction false} EndAfterWalk(text: string, i: nat, s: Scan, w: string, k: Brackets)
    requires i + |w| <= |text| && text[i..i + |w|] == w && Walk(s, w, k).Some?
    ensures EndFrom(text, i, s, k) == EndFrom(text, i + |w|, Walk(s, w, k).value, k)
    decreases |w|
  {
    if w != "" {
      assert text[i] == w[0];
      assert text[i + 1..i + |w|] == w[1..];
      EndAfterWalk(text, i + 1, Feed(s, w[0], k), w[1..], k);
    }
  }

  // ----- inside an open bracket every JSON text leaves the scanner as it was -----

  function Inside(depth: int): Scan {
    Scan(depth, false, false)
  }

  // w neither closes nor moves the scanner, at this depth.
  predicate Passes(w: string, depth: int, k: Brackets) {
    Walk(Inside(depth), w, k) == Some(Inside(depth))
  }

  lemma PassesAppend(a: string, b: string, depth: int, k: Brackets)
    requires Passes(a, depth, k) && Passes(b, depth, k)
    ensures Passes(a + b, depth, k)
  {
    WalkAppend(Inside(depth), a, b, k);
  }

  lemma {:induction false} NeutralPasses(w: string, depth: int, k: Brackets)
    requires IsKind(k)
    requires forall i :: 0 <= i < |w| ==> w[i] !in {'"', '{', '}', '[', ']'}
    ensures Passes(w, depth, k)
    decreases |w|
  {
    if w != "" {
      NeutralPasses(w[1..], depth, k);
    }
  }

  lemma {:induction false} CharsStayInString(chars: seq<StrChar>, depth: int, k: Brackets)
    requires ValidString(chars)
    ensures Walk(Scan(depth, true, false), PrintChars(chars), k) == Some(Scan(depth, true, false))
    decreases |chars|
  {
    if chars != [] {
      var s := Scan(depth, true, false);
      CharsStayInString(chars[1..], depth, k);
      assert ValidChar(chars[0]);
      assert Walk(s, PrintChar(chars[0]), k) == Some(s) by { CharStaysInString(chars[0], depth, k); }
      WalkAppend(s, PrintChar(chars[0]), PrintChars(chars[1..]), k);
    }
  }

  lemma CharStaysInString(c: StrChar, depth: int, k: Brackets)
    requires ValidChar(c)
    ensures Walk(Scan(depth, true, false), PrintChar(c), k) == Some(Scan(depth, true, false))
  {
    var s := Scan(depth, true, false);
    match c
    case Plain(p) =>
      assert Walk(s, "", k) == Some(s);
    case Escape(e) =>
      assert PrintChar(c)[1..] == [e];
      assert [e][1..] == "";
    case Unicode(d1, d2, d3, d4) =>
      var w := PrintChar(c);
      assert w[1..] == ['u', d1, d2, d3, d4] && w[1..][1..] == [d1, d2, d3, d4];
      PlainStaysInString([d1, d2, d3, d4], depth, k);
      assert Walk(s.(escaped := true), ['u', d1, d2, d3, d4], k) == Walk(s, [d1, d2, d3, d4], k);
  }

  lemma {:induction false} PlainStaysInString(w: string, depth: int, k: Brackets)
    requires forall i :: 0 <= i < |w| ==> w[i] != '"' && w[i] != '\\'
    ensures Walk(Scan(depth, true, false), w, k) == Some(Scan(depth, true, false))
    decreases |w|
  {
    if w != "" {
      PlainStaysInString(w[1..], depth, k);
    }
  }

  lemma StringPasses(chars: seq<StrChar>, depth: int, k: Brackets)
    requires IsKind(k) && ValidString(chars)
    ensures Passes(PrintString(chars), depth, k)
  {
    var s, t := Inside(depth), Scan(depth, true, false);
    assert "\""[1..] == "";
    assert Walk(s, "\"", k) == Walk(t, "", k) == Some(t);
    assert Walk(t, "\"", k) == Walk(s, "", k) == Some(s);
    CharsStayInString(chars, depth, k);
    WalkAppend(s, "\"", PrintChars(chars), k);
    WalkAppend(s, "\"" + PrintChars(chars), "\"", k);
  }

  // A pair of brackets around text that passes one level deeper, or at the same
  // level if the scan counts the other kind.
  lemma WrappedPasses(o: char, inner: string, c: char, depth: int, k: Brackets)
    requires IsKind(k) && depth >= 1 && IsKind(Brackets(o, c))
    requires Passes(inner, if o == k.open then depth + 1 else depth, k)
    ensures Passes([o] + inner + [c], depth, k)
  {
    var s := Inside(depth);
    var d := if o == k.open then depth + 1 else depth;
    assert [o][1..] == "" && [c][1..] == "";
    assert Walk(s, [o], k) == Walk(Inside(d), "", k) == Some(Inside(d));
    assert Walk(Inside(d), [c], k) == Walk(s, "", k) == Some(s);
    WalkAppend(s, [o], inner, k);
    WalkAppend(s, [o] + inner, [c], k);
  }

  lemma {:induction false} JsonPasses(j: Json, depth: int, k: Brackets)
    requires IsKind(k) && depth >= 1 && Valid(j)
    ensures Passes(Print(j), depth, k)
    decreases j
  {
    match j
    case Scalar(text) => NeutralPasses(text, depth, k);
    case Str(chars) => StringPasses(chars, depth, k);
    case EmptyArr(ws) =>
      NeutralPasses(ws, if '[' == k.open then depth + 1 else depth, k);
      WrappedPasses('[', ws, ']', depth, k);
    case Arr(elements) =>
      ElementsPass(elements, if '[' == k.open then depth + 1 else depth, k);
      WrappedPasses('[', PrintElements(elements), ']', depth, k);
    case EmptyObj(ws) =>
      NeutralPasses(ws, if '{' == k.open then depth + 1 else depth, k);
      WrappedPasses('{', ws, '}', depth, k);
    case Obj(members) =>
      MembersPass(members, if '{' == k.open then depth + 1 else depth, k);
      WrappedPasses('{', PrintMembers(members), '}', depth, k);
  }

  lemma {:induction false} PaddedPasses(p: Padded, depth: int, k: Brackets)
    requires IsKind(k) && depth >= 1 && ValidPadded(p)
    ensures Passes(PrintPadded(p), depth, k)
    decreases p
  {
    NeutralPasses(p.before, depth, k);
    JsonPasses(p.json, depth, k);
    NeutralPasses(p.after, depth, k);
    PassesAppend(p.before, Print(p.json), depth, k);
    PassesAppend(p.before + Print(p.json), p.after, depth, k);
  }

  lemma {:induction false} ElementsPass(e: Elements, depth: int, k: Brackets)
    requires IsKind(k) && depth >= 1 && ValidElements(e)
    ensures Passes(PrintElements(e), depth, k)
    decreases e
  {
    PaddedPasses(e.value, depth, k);
    if e.MoreElements? {
      NeutralPasses(",", depth, k);
      ElementsPass(e.rest, depth, k);
      PassesAppend(PrintPadded(e.value), ",", depth, k);
      PassesAppend(PrintPadded(e.value) + ",", PrintElements(e.rest), depth, k);
    }
  }

  lemma {:induction false} MembersPass(m: Members, depth: int, k: Brackets)
    requires IsKind(k) && depth >= 1 && ValidMembers(m)
    ensures Passes(PrintMembers(m), depth, k)
    decreases m
  {
    NeutralPasses(m.before, depth, k);
    StringPasses(m.key, depth, k);
    NeutralPasses(m.after, depth, k);
    NeutralPasses(":", depth, k);
    PaddedPasses(m.value, depth, k);
    PassesAppend(m.before, PrintString(m.key), depth, k);
    PassesAppend(m.before + PrintString(m.key), m.after, depth, k);
    PassesAppend(m.before + PrintString(m.key) + m.after, ":", depth, k);
    PassesAppend(m.before + PrintString(m.key) + m.after + ":", PrintPadded(m.value), depth, k);
    if m.MoreMembers? {
      var first := m.before + PrintString(m.key) + m.after + ":" + PrintPadded(m.value);
      NeutralPasses(",", depth, k);
      MembersPass(m.rest, depth, k);
      PassesAppend(first, ",", depth, k);
      PassesAppend(first + ",", PrintMembers(m.rest), depth, k);
    }
  }

  predicate IsContainer(j: Json) {
    j.EmptyArr? || j.Arr? || j.EmptyObj? || j.Obj?
  }

  function KindOf(j: Json): Brackets {
    if j.EmptyArr? || j.Arr? then Squares else Braces
  }

  // What stands between the brackets.
  function Inner(j: Json): string
    requires IsContainer(j)
  {
    match j
    case EmptyArr(ws) => ws
    case Arr(elements) => PrintElements(elements)
    case EmptyObj(ws) => ws
    case Obj(members) => PrintMembers(members)
  }

  lemma EndsAfterInner(text: string, i: nat, inner: string, k: Brackets)
    requires IsKind(k) && i + |inner| + 1 < |text|
    requires text[i] == k.open && text[i + 1..i + 1 + |inner|] == inner && text[i + 1 + |inner|] == k.close
    requires Passes(inner, 1, k)
    ensures EndOf(text, i, k) == Some(i + |inner| + 2)
  {
    EndAfterWalk(text, i + 1, Inside(1), inner, k);
  }

  /** Wherever a JSON object or array stands in a text, the scan that starts at
      its opening bracket ends exactly at its closing one. */
  lemma ScanEndsWithJson(prefix: string, j: Json, suffix: string)
    requires Valid(j) && IsContainer(j)
    ensures EndOf(prefix + Print(j) + suffix, |prefix|, KindOf(j)) == Some(|prefix| + |Print(j)|)
  {
    var k, inner, text := KindOf(j), Inner(j), prefix + Print(j) + suffix;
    match j {
      case EmptyArr(ws) => NeutralPasses(ws, 1, k);
      case Arr(elements) => ElementsPass(elements, 1, k);
      case EmptyObj(ws) => NeutralPasses(ws, 1, k);
      case Obj(members) => MembersPass(members, 1, k);
    }
    assert Print(j) == [k.open] + inner + [k.close];
    assert text[|prefix| + 1..|prefix| + 1 + |inner|] == inner;
    EndsAfterInner(text, |prefix|, inner, k);
  }

  // ----- json_candidates -----

  function AsSeq<V>(v: Option<V>): seq<V> {
    if v.Some? then [v.value] else []
  }

  // What the scan that starts at i yields; parse stands for serde_json::from_str.
  function CandidateAt<V>(text: string, i: nat, k: Brackets, parse: string -> Option<V>): seq<V>
    requires i < |text|
  {
    if text[i] == k.open && EndOf(text, i, k).Some? then AsSeq(parse(text[i..EndOf(text, i, k).value])) else []
  }

  function CandidatesFrom<V>(text: string, i: nat, k: Brackets, parse: string -> Option<V>): seq<V>
    requires i <= |text|
    decreases |text| - i
  {
    if i == |text| then [] else CandidateAt(text, i, k, parse) + CandidatesFrom(text, i + 1, k, parse)
  }

  function AllCandidates<V>(text: string, parse: string -> Option<V>): seq<V> {
    AsSeq(parse(Trim(text))) + CandidatesFrom(text, 0, Braces, parse) + CandidatesFrom(text, 0, Squares, parse)
  }

  method ScanFrom(text: string, start: nat, k: Brackets) returns (end: Option<nat>)
    requires start < |text|
    ensures end == EndOf(text, start, k)
  {
    var depth, inString, escaped := 0, false, false;
    for i := start to |text|
      invariant EndOf(text, start, k) == EndFrom(text, i, Scan(depth, inString, escaped), k)
    {
      var ch := text[i];
      if escaped {
        escaped := false;
      } else if ch == '\\' && inString {
        escaped := true;
      } else if ch == '"' {
        inString := !inString;
      } else if inString {
      } else if ch == k.open {
        depth := depth + 1;
      } else if ch == k.close {
        depth := depth - 1;
        if depth == 0 {
          return Some(i + 1);
        }
      }
    }
    return None;
  }

  lemma Regroup<V>(a: seq<V>, b: seq<V>, c: seq<V>)
    ensures (a + b) + c == a + (b + c)
  {
  }

  method CandidatesOfKind<V>(text: string, k: Brackets, parse: string -> Option<V>) returns (found: seq<V>)
    ensures found == CandidatesFrom(text, 0, k, parse)
  {
    found := [];
    for start := 0 to |text|
      invariant found + CandidatesFrom(text, start, k, parse) == CandidatesFrom(text, 0, k, parse)
    {
      ghost var before := found;
      if text[start] == k.open {
        var end := ScanFrom(text, start, k);
        if end.Some? {
          var value := parse(text[start..end.value]);
          if value.Some? {
            found := found + [value.value];
          }
        }
      }
      assert found == before + CandidateAt(text, start, k, parse);
      Regroup(before, CandidateAt(text, start, k, parse), CandidatesFrom(text, start + 1, k, parse));
    }
  }

  method JsonCandidates<V>(text: string, parse: string -> Option<V>) returns (candidates: seq<V>)
    ensures candidates == AllCandidates(text, parse)
  {
    candidates := [];
    var value := parse(Trim(text));
    if value.Some? {
      candidates := [value.value];
    }
    var braces := CandidatesOfKind(text, Braces, parse);
    var squares := CandidatesOfKind(text, Squares, parse);
    candidates := candidates + braces + squares;
  }

  lemma {:induction false} CandidateIncluded<V>(text: string, from: nat, i: nat, k: Brackets,
                                                parse: string -> Option<V>, v: V)
    requires from <= i < |text| && v in CandidateAt(text, i, k, parse)
    ensures v in CandidatesFrom(text, from, k, parse)
    decreases i - from
  {
    if from < i {
      CandidateIncluded(text, from + 1, i, k, parse, v);
    }
  }

  /** Every JSON object or array that the parser accepts is found, whatever text
      stands around it. */
  lemma EmbeddedJsonIsFound<V>(prefix: string, j: Json, suffix: string, parse: string -> Option<V>)
    requires Valid(j) && IsContainer(j) && parse(Print(j)).Some?
    ensures parse(Print(j)).value in AllCandidates(prefix + Print(j) + suffix, parse)
  {
    var text, i, k := prefix + Print(j) + suffix, |prefix|, KindOf(j);
    ScanEndsWithJson(prefix, j, suffix);
    assert text[i..i + |Print(j)|] == Print(j);
    assert text[i] == Print(j)[0] == k.open;
    CandidateIncluded(text, 0, i, k, parse, parse(Print(j)).value);
  }
}
