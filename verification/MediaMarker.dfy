/**
 Media markers in prompt text.

 Images are replaced by a marker text, the texts of a message are joined by
 newlines, and the joined text is later split at the markers again. The
 splitter undoes the join, and yields one marker part per image exactly when no
 text happens to contain the marker.
 */
module MediaMarker {
  import opened Options
  import opened Strings

  datatype Part = Text(text: string) | Marker

  // ----- split_media_marker_text -----

  function TextPart(text: string): seq<Part> {
    if text == "" then [] else [Text(text)]
  }

  function SplitParts(rest: string, marker: string): seq<Part>
    requires marker != ""
    decreases |rest|
  {
    match SplitOnce(rest, marker)
    case None => TextPart(rest)
    case Some((before, after)) =>
      TextPart(StripSuffix(before, '\n')) + [Marker] + SplitParts(StripPrefix(after, '\n'), marker)
  }

  method PushText(parts: seq<Part>, text: string) returns (parts': seq<Part>)
    ensures parts' == parts + TextPart(text)
  {
    parts' := parts;
    if text != "" {
      parts' := parts' + [Text(text)];
    } else {
      assert parts + [] == parts;
    }
  }

  lemma SplitStep(done: seq<Part>, rest: string, marker: string)
    requires marker != "" && SplitOnce(rest, marker).Some?
    ensures done + SplitParts(rest, marker)
         == done + TextPart(StripSuffix(SplitOnce(rest, marker).value.0, '\n')) + [Marker]
            + SplitParts(StripPrefix(SplitOnce(rest, marker).value.1, '\n'), marker)
  {
  }

  method SplitMediaMarkerText(text: string, marker: string) returns (result: Option<seq<Part>>)
    requires marker != ""
    ensures result == if SplitOnce(text, marker).None? then None else Some(SplitParts(text, marker))
  {
    var parts: seq<Part> := [];
    var rest := text;
    var foundMarker := false;
    var split := SplitOnce(rest, marker);
    ghost var goal := SplitParts(text, marker);
    assert [] + goal == goal;
    while split.Some?
      invariant split == SplitOnce(rest, marker)
      invariant foundMarker ==> SplitOnce(text, marker).Some?
      invariant !foundMarker ==> rest == text
      invariant parts + SplitParts(rest, marker) == goal
      decreases |rest|
    {
      foundMarker := true;
      SplitStep(parts, rest, marker);
      parts := PushText(parts, StripSuffix(split.value.0, '\n'));
      parts := parts + [Marker];
      rest := StripPrefix(split.value.1, '\n');
      split := SplitOnce(rest, marker);
    }
    if !foundMarker {
      return None;
    }
    parts := PushText(parts, rest);
    return Some(parts);
  }

  lemma Regroup(a: seq<Part>, b: seq<Part>, c: seq<Part>)
    ensures (a + b) + c == a + (b + c)
  {
  }

  // ----- the join it undoes -----

  function Render(p: Part, marker: string): string {
    if p.Marker? then marker else p.text
  }

  function Join(parts: seq<Part>, marker: string): string {
    if parts == [] then ""
    else if |parts| == 1 then Render(parts[0], marker)
    else Render(parts[0], marker) + "\n" + Join(parts[1..], marker)
  }

  // Adjacent texts become one.
  function Merge(parts: seq<Part>): seq<Part> {
    if |parts| < 2 then parts
    else
      var rest := Merge(parts[1..]);
      if parts[0].Text? && rest != [] && rest[0].Text?
      then [Text(parts[0].text + "\n" + rest[0].text)] + rest[1..]
      else [parts[0]] + rest
  }

  predicate MarkerFree(text: string, marker: string) {
    Find(text, marker).None?
  }

  predicate TextsMarkerFree(parts: seq<Part>, marker: string) {
    forall i :: 0 <= i < |parts| && parts[i].Text? ==> MarkerFree(parts[i].text, marker)
  }

  predicate IsMarker(marker: string) {
    marker != "" && '\n' !in marker
  }

  predicate CleanParts(parts: seq<Part>, marker: string) {
    forall i :: 0 <= i < |parts| && parts[i].Text? ==> parts[i].text != "" && MarkerFree(parts[i].text, marker)
  }

  predicate Merged(parts: seq<Part>) {
    forall i :: 0 <= i < |parts| - 1 ==> parts[i].Marker? || parts[i + 1].Marker?
  }

  // An occurrence cannot contain the newline between two texts.
  lemma OccursInJoin(a: string, b: string, marker: string, i: nat)
    requires IsMarker(marker)
    ensures OccursAt(a + "\n" + b, marker, i)
            <==> OccursAt(a, marker, i) || (i > |a| && OccursAt(b, marker, i - |a| - 1))
  {
    var s := a + "\n" + b;
    if i + |marker| <= |a| {
      assert s[i..i + |marker|] == a[i..i + |marker|];
    } else if i > |a| {
      if i + |marker| <= |s| {
        assert s[i..i + |marker|] == b[i - |a| - 1..i - |a| - 1 + |marker|];
      }
    } else if i + |marker| <= |s| {
      assert s[i..i + |marker|][|a| - i] == '\n';
    }
  }

  lemma FindInJoin(a: string, b: string, marker: string)
    requires IsMarker(marker)
    ensures Find(a + "\n" + b, marker)
         == if Find(a, marker).Some? then Find(a, marker)
            else if Find(b, marker).Some? then Some(|a| + 1 + Find(b, marker).value)
            else None
  {
    forall i: nat
      ensures OccursAt(a + "\n" + b, marker, i)
              <==> OccursAt(a, marker, i) || (i > |a| && OccursAt(b, marker, i - |a| - 1))
    {
      OccursInJoin(a, b, marker, i);
    }
    FindIsFirst(a, marker, Find(a, marker));
    FindIsFirst(b, marker, Find(b, marker));
    FindIsFirst(a + "\n" + b, marker,
                if Find(a, marker).Some? then Find(a, marker)
                else if Find(b, marker).Some? then Some(|a| + 1 + Find(b, marker).value)
                else None);
  }

  lemma {:induction false} MergeKeepsJoin(parts: seq<Part>, marker: string)
    requires IsMarker(marker) && CleanParts(parts, marker)
    ensures Join(Merge(parts), marker) == Join(parts, marker)
    ensures CleanParts(Merge(parts), marker) && Merged(Merge(parts))
    ensures parts != [] ==> Merge(parts) != []
    decreases |parts|
  {
    if |parts| >= 2 {
      MergeKeepsJoin(parts[1..], marker);
      var rest := Merge(parts[1..]);
      if parts[0].Text? && rest != [] && rest[0].Text? {
        FindInJoin(parts[0].text, rest[0].text, marker);
        var merged := Merge(parts);
        assert merged[1..] == rest[1..];
        if |rest| > 1 {
          assert Join(merged, marker) == (parts[0].text + "\n" + rest[0].text) + "\n" + Join(rest[1..], marker);
          assert Join(rest, marker) == rest[0].text + "\n" + Join(rest[1..], marker);
        }
      } else {
        assert Merge(parts)[1..] == rest;
      }
    }
  }

  lemma FindMarkerFirst(after: string, marker: string)
    requires marker != ""
    ensures Find(marker + after, marker) == Some(0)
  {
  }

  lemma SplitMarker(tail: string, marker: string)
    requires marker != ""
    ensures SplitParts(marker + tail, marker) == [Marker] + SplitParts(StripPrefix(tail, '\n'), marker)
  {
  }

  lemma SplitTextMarker(text: string, tail: string, marker: string)
    requires IsMarker(marker) && text != "" && MarkerFree(text, marker)
    ensures SplitParts(text + "\n" + (marker + tail), marker)
         == [Text(text), Marker] + SplitParts(StripPrefix(tail, '\n'), marker)
  {
    FindMarkerFirst(tail, marker);
    FindInJoin(text, marker + tail, marker);
    assert text + "\n" + (marker + tail) == (text + "\n") + marker + tail;
    SplitOnceAt(text + "\n", marker, tail);
    assert StripSuffix(text + "\n", '\n') == text;
    assert [Text(text)] + [Marker] == [Text(text), Marker];
  }

  // What follows a marker in a join.
  function Tail(rest: seq<Part>, marker: string): string {
    if rest == [] then "" else "\n" + Join(rest, marker)
  }

  lemma StripTail(rest: seq<Part>, marker: string)
    ensures StripPrefix(Tail(rest, marker), '\n') == Join(rest, marker)
  {
  }

  lemma MarkerThenRest(rest: seq<Part>, marker: string)
    requires marker != "" && SplitParts(Join(rest, marker), marker) == rest
    ensures SplitParts(Join([Marker] + rest, marker), marker) == [Marker] + rest
  {
    SplitMarker(Tail(rest, marker), marker);
    StripTail(rest, marker);
    assert ([Marker] + rest)[1..] == rest;
    assert Join([Marker] + rest, marker) == marker + Tail(rest, marker);
  }

  lemma JoinTextThenMarker(text: string, rest: seq<Part>, marker: string)
    ensures Join([Text(text), Marker] + rest, marker) == text + "\n" + (marker + Tail(rest, marker))
  {
  }

  lemma TextThenRest(text: string, rest: seq<Part>, marker: string)
    requires IsMarker(marker) && text != "" && MarkerFree(text, marker)
    requires SplitParts(Join(rest, marker), marker) == rest
    ensures SplitParts(Join([Text(text), Marker] + rest, marker), marker) == [Text(text), Marker] + rest
  {
    JoinTextThenMarker(text, rest, marker);
    SplitTextMarker(text, Tail(rest, marker), marker);
    StripTail(rest, marker);
  }

  lemma {:induction false} SplitJoinMerged(parts: seq<Part>, marker: string)
    requires IsMarker(marker) && CleanParts(parts, marker) && Merged(parts)
    ensures SplitParts(Join(parts, marker), marker) == parts
    decreases |parts|
  {
    if parts == [] || (|parts| == 1 && parts[0].Text?) {
      return;
    }
    if parts[0].Marker? {
      SplitJoinMerged(parts[1..], marker);
      MarkerThenRest(parts[1..], marker);
      assert parts == [Marker] + parts[1..];
    } else {
      assert parts[1].Marker?;
      SplitJoinMerged(parts[2..], marker);
      TextThenRest(parts[0].text, parts[2..], marker);
      assert parts == [Text(parts[0].text), Marker] + parts[2..];
    }
  }

  lemma {:induction false} MarkerIsFound(parts: seq<Part>, marker: string)
    requires IsMarker(marker) && Marker in parts
    ensures Find(Join(parts, marker), marker).Some?
    decreases |parts|
  {
    if |parts| == 1 {
      assert parts[0] == Marker;
      assert marker + "" == marker;
      FindMarkerFirst("", marker);
    } else {
      if parts[0] == Marker {
        assert marker + "" == marker;
        FindMarkerFirst("", marker);
      } else {
        MarkerIsFound(parts[1..], marker);
      }
      FindInJoin(Render(parts[0], marker), Join(parts[1..], marker), marker);
    }
  }

  /** Splitting a joined list of non-empty marker-free texts and markers gives
      the list back, adjacent texts merged. */
  lemma SplitUndoesJoin(parts: seq<Part>, marker: string)
    requires IsMarker(marker) && CleanParts(parts, marker) && Marker in parts
    ensures SplitOnce(Join(parts, marker), marker).Some?
    ensures SplitParts(Join(parts, marker), marker) == Merge(parts)
  {
    MarkerIsFound(parts, marker);
    MergeKeepsJoin(parts, marker);
    SplitJoinMerged(Merge(parts), marker);
  }

  // ----- how many markers come out, whatever the texts contain -----

  // Occurrences found left to right without overlap.
  function Occurrences(s: string, marker: string): nat
    requires marker != ""
    decreases |s|
  {
    match SplitOnce(s, marker)
    case None => 0
    case Some((_, after)) => 1 + Occurrences(after, marker)
  }

  function CountMarkers(parts: seq<Part>): nat {
    if parts == [] then 0 else (if parts[0].Marker? then 1 else 0) + CountMarkers(parts[1..])
  }

  // Occurrences of the marker inside the texts.
  function StrayMarkers(parts: seq<Part>, marker: string): nat
    requires marker != ""
  {
    if parts == [] then 0
    else (if parts[0].Text? then Occurrences(parts[0].text, marker) else 0) + StrayMarkers(parts[1..], marker)
  }

  lemma {:induction false} CountAppend(a: seq<Part>, b: seq<Part>)
    ensures CountMarkers(a + b) == CountMarkers(a) + CountMarkers(b)
  {
    if a == [] {
      assert a + b == b;
    } else {
      assert (a + b)[1..] == a[1..] + b;
      CountAppend(a[1..], b);
    }
  }

  lemma {:induction false} OccurrencesInJoin(a: string, b: string, marker: string)
    requires IsMarker(marker)
    ensures Occurrences(a + "\n" + b, marker) == Occurrences(a, marker) + Occurrences(b, marker)
    decreases |a|
  {
    FindInJoin(a, b, marker);
    if SplitOnce(a, marker).Some? {
      var (before, after) := SplitOnce(a, marker).value;
      assert a + "\n" + b == before + marker + (after + "\n" + b);
      SplitOnceAt(before, marker, after + "\n" + b);
      OccurrencesInJoin(after, b, marker);
    } else if SplitOnce(b, marker).Some? {
      var (before, after) := SplitOnce(b, marker).value;
      assert a + "\n" + b == (a + "\n" + before) + marker + after;
      SplitOnceAt(a + "\n" + before, marker, after);
    }
  }

  lemma {:induction false} SplitCounts(s: string, marker: string)
    requires IsMarker(marker)
    ensures CountMarkers(SplitParts(s, marker)) == Occurrences(s, marker)
    decreases |s|
  {
    if SplitOnce(s, marker).Some? {
      var (before, after) := SplitOnce(s, marker).value;
      var rest := StripPrefix(after, '\n');
      SplitCounts(rest, marker);
      if rest != after {
        assert after == "" + "\n" + rest;
        OccurrencesInJoin("", rest, marker);
      }
      CountAppend(TextPart(StripSuffix(before, '\n')), [Marker]);
      CountAppend(TextPart(StripSuffix(before, '\n')) + [Marker], SplitParts(rest, marker));
    }
  }

  lemma {:induction false} JoinCounts(parts: seq<Part>, marker: string)
    requires IsMarker(marker)
    ensures Occurrences(Join(parts, marker), marker) == CountMarkers(parts) + StrayMarkers(parts, marker)
    decreases |parts|
  {
    assert Occurrences(marker, marker) == 1 by {
      assert "" + marker + "" == marker + "" == marker;
      FindMarkerFirst("", marker);
      SplitOnceAt("", marker, "");
    }
    if |parts| == 1 {
      assert parts[1..] == [];
    } else if |parts| > 1 {
      JoinCounts(parts[1..], marker);
      OccurrencesInJoin(Render(parts[0], marker), Join(parts[1..], marker), marker);
    }
  }

  lemma {:induction false} NoStrayMarkers(parts: seq<Part>, marker: string)
    requires marker != ""
    ensures StrayMarkers(parts, marker) == 0
            <==> TextsMarkerFree(parts, marker)
  {
    if parts != [] {
      NoStrayMarkers(parts[1..], marker);
      assert forall i :: 1 <= i < |parts| ==> parts[i] == parts[1..][i - 1];
    }
  }

  /** The split has as many marker parts as the list has markers exactly when no
      text of the list contains the marker. */
  lemma MarkersMatchExactly(parts: seq<Part>, marker: string)
    requires IsMarker(marker)
    ensures CountMarkers(SplitParts(Join(parts, marker), marker)) == CountMarkers(parts)
            <==> TextsMarkerFree(parts, marker)
  {
    SplitCounts(Join(parts, marker), marker);
    JoinCounts(parts, marker);
    NoStrayMarkers(parts, marker);
  }

  // ----- from images to marker parts -----

  type Bytes = seq<bv8>

  // A piece of a message. Other stands for tool calls and responses, with the
  // text extract_text_content makes of them.
  datatype Content = TextContent(text: string) | Image(data: string) | Other(rendered: Option<SomeText>)

  type SomeText = text: string | text != "" witness "$ "

  // In pieces, because the verifier does not look into a literal of this length.
  const DECODE_FAILED := "[Image attached " + "\U{2014} failed " + "to decode " + "image data]"
  const NOT_SUPPORTED :=
    "[Image attached \U{2014} image input is not supported with the currently selected model]"

  function Extracted(c: Content, marker: string, decode: string -> Option<Bytes>): Content {
    if !c.Image? then c
    else TextContent(if decode(c.data).Some? then marker else DECODE_FAILED)
  }

  function AllExtracted(content: seq<Content>, marker: string, decode: string -> Option<Bytes>): seq<Content> {
    if content == [] then []
    else AllExtracted(content[..|content| - 1], marker, decode) + [Extracted(content[|content| - 1], marker, decode)]
  }

  function ImagesOf(content: seq<Content>, decode: string -> Option<Bytes>): seq<Bytes> {
    if content == [] then []
    else
      var last := content[|content| - 1];
      ImagesOf(content[..|content| - 1], decode)
      + if last.Image? && decode(last.data).Some? then [decode(last.data).value] else []
  }

  function AllImagesOf(messages: seq<seq<Content>>, decode: string -> Option<Bytes>): seq<Bytes> {
    if messages == [] then []
    else AllImagesOf(messages[..|messages| - 1], decode) + ImagesOf(messages[|messages| - 1], decode)
  }

  method ExtractImagesFromMessages(messages: seq<seq<Content>>, marker: string, decode: string -> Option<Bytes>)
    returns (images: seq<Bytes>, newMessages: seq<seq<Content>>)
    ensures images == AllImagesOf(messages, decode)
    ensures |newMessages| == |messages|
    ensures forall i :: 0 <= i < |messages| ==> newMessages[i] == AllExtracted(messages[i], marker, decode)
  {
    images, newMessages := [], [];
    for i := 0 to |messages|
      invariant images == AllImagesOf(messages[..i], decode)
      invariant |newMessages| == i
      invariant forall j :: 0 <= j < i ==> newMessages[j] == AllExtracted(messages[j], marker, decode)
    {
      var content := messages[i];
      var newContent: seq<Content> := [];
      for k := 0 to |content|
        invariant newContent == AllExtracted(content[..k], marker, decode)
        invariant images == AllImagesOf(messages[..i], decode) + ImagesOf(content[..k], decode)
      {
        assert content[..k + 1][..k] == content[..k];
        match content[k] {
          case Image(data) =>
            var bytes := decode(data);
            if bytes.Some? {
              images := images + [bytes.value];
              newContent := newContent + [TextContent(marker)];
            } else {
              newContent := newContent + [TextContent(DECODE_FAILED)];
            }
          case other => newContent := newContent + [other];
        }
      }
      assert content[..|content|] == content;
      assert messages[..i + 1][..i] == messages[..i];
      newMessages := newMessages + [newContent];
    }
    assert messages[..|messages|] == messages;
  }

  // strip_info_messages before its final trim.
  function StripInfoRaw(text: string): string
    decreases |text|
  {
    match SplitOnce(text, "<info-msg>")
    case None => text
    case Some((before, afterStart)) =>
      before + match SplitOnce(afterStart, "</info-msg>")
               case None => ""
               case Some((_, afterEnd)) => StripInfoRaw(afterEnd)
  }

  function StripInfoMessages(text: string): string {
    Trim(StripInfoRaw(text))
  }

  function RenderedText(c: Content): Option<string> {
    match c
    case TextContent(text) =>
      if Trim(StripInfoMessages(text)) == "" then None else Some(StripInfoMessages(text))
    case Image(_) => Some(NOT_SUPPORTED)
    case Other(rendered) => rendered
  }

  function AsSeq<T>(t: Option<T>): seq<T> {
    if t.Some? then [t.value] else []
  }

  function RenderedTexts(content: seq<Content>): seq<string> {
    if content == [] then []
    else RenderedTexts(content[..|content| - 1]) + AsSeq(RenderedText(content[|content| - 1]))
  }

  // extract_text_content
  function ExtractTextContent(content: seq<Content>): string {
    Join(TextsAsParts(RenderedTexts(content)), "")
  }

  function TextsAsParts(texts: seq<string>): seq<Part> {
    seq(|texts|, i requires 0 <= i < |texts| => Text(texts[i]))
  }

  // The parts a piece means: a marker for a decodable image, or its text.
  function PartOf(c: Content, decode: string -> Option<Bytes>): seq<Part> {
    if c.Image? then [if decode(c.data).Some? then Marker else Text(DECODE_FAILED)]
    else if RenderedText(c).Some? then [Text(RenderedText(c).value)]
    else []
  }

  function PartsOf(content: seq<Content>, decode: string -> Option<Bytes>): seq<Part> {
    if content == [] then []
    else PartsOf(content[..|content| - 1], decode) + PartOf(content[|content| - 1], decode)
  }

  // The marker survives the clean-up of texts.
  predicate SurvivesCleanUp(marker: string) {
    StripInfoMessages(marker) == marker && Trim(marker) != ""
  }

  // Texts of the parts, markers spelled out.
  function Spelled(parts: seq<Part>, marker: string): seq<string> {
    seq(|parts|, i requires 0 <= i < |parts| => Render(parts[i], marker))
  }

  lemma {:induction false} JoinSpelled(parts: seq<Part>, marker: string)
    ensures Join(TextsAsParts(Spelled(parts, marker)), "") == Join(parts, marker)
  {
    if |parts| > 1 {
      JoinSpelled(parts[1..], marker);
      assert TextsAsParts(Spelled(parts, marker))[1..] == TextsAsParts(Spelled(parts[1..], marker));
    }
  }

  lemma SpelledAppend(a: seq<Part>, b: seq<Part>, marker: string)
    ensures Spelled(a + b, marker) == Spelled(a, marker) + Spelled(b, marker)
  {
  }

  // Text without a tag opener is only trimmed.
  lemma NoTagToStrip(text: string)
    requires '<' !in text
    ensures StripInfoRaw(text) == text
  {
  }

  lemma DecodeFailedSurvives()
    ensures SurvivesCleanUp(DECODE_FAILED)
  {
    assert |DECODE_FAILED| == 46 && DECODE_FAILED[0] == '[' && DECODE_FAILED[45] == ']';
    NoTagToStrip(DECODE_FAILED);
  }

  // The usual marker meets what the results below ask of a marker.
  lemma MediaMarkerSurvives()
    ensures IsMarker("<__media__>") && SurvivesCleanUp("<__media__>")
  {
    var m, tag := "<__media__>", "<info-msg>";
    assert m[1] == m[2] == '_' && tag[1] == 'i' && |m| == 11 && |tag| == 10;
    forall j: nat ensures !OccursAt(m, tag, j) {
      if j + |tag| <= |m| {
        assert m[j..j + |tag|][1] == m[j + 1];
      }
    }
    FindIsFirst(m, tag, None);
  }

  lemma PartIsRendered(c: Content, marker: string, decode: string -> Option<Bytes>)
    requires SurvivesCleanUp(marker)
    ensures AsSeq(RenderedText(Extracted(c, marker, decode))) == Spelled(PartOf(c, decode), marker)
  {
    DecodeFailedSurvives();
  }

  lemma {:induction false} PartsAreRendered(content: seq<Content>, marker: string, decode: string -> Option<Bytes>)
    requires SurvivesCleanUp(marker)
    ensures RenderedTexts(AllExtracted(content, marker, decode)) == Spelled(PartsOf(content, decode), marker)
    decreases |content|
  {
    if content != [] {
      var init, last := content[..|content| - 1], content[|content| - 1];
      PartsAreRendered(init, marker, decode);
      PartIsRendered(last, marker, decode);
      SpelledAppend(PartsOf(init, decode), PartOf(last, decode), marker);
      var out := AllExtracted(content, marker, decode);
      assert out[..|out| - 1] == AllExtracted(init, marker, decode);
      assert out[|out| - 1] == Extracted(last, marker, decode);
    }
  }

  lemma {:induction false} OneMarkerPartPerImage(content: seq<Content>, decode: string -> Option<Bytes>)
    ensures CountMarkers(PartsOf(content, decode)) == |ImagesOf(content, decode)|
    decreases |content|
  {
    if content != [] {
      var init, last := content[..|content| - 1], content[|content| - 1];
      OneMarkerPartPerImage(init, decode);
      CountAppend(PartsOf(init, decode), PartOf(last, decode));
    }
  }

  // What split_media_marker_text makes of a message after extraction.
  function Reparsed(content: seq<Content>, marker: string, decode: string -> Option<Bytes>): seq<Part>
    requires marker != ""
  {
    SplitParts(ExtractTextContent(AllExtracted(content, marker, decode)), marker)
  }

  /** Splitting the text of a message gives one marker part per decoded image,
      exactly when none of its other texts contains the marker. */
  lemma MarkersMatchImages(content: seq<Content>, marker: string, decode: string -> Option<Bytes>)
    requires IsMarker(marker) && SurvivesCleanUp(marker)
    ensures CountMarkers(Reparsed(content, marker, decode)) == |ImagesOf(content, decode)|
            <==> TextsMarkerFree(PartsOf(content, decode), marker)
  {
    PartsAreRendered(content, marker, decode);
    JoinSpelled(PartsOf(content, decode), marker);
    MarkersMatchExactly(PartsOf(content, decode), marker);
    OneMarkerPartPerImage(content, decode);
  }

  lemma {:induction false} PartsSaySomething(content: seq<Content>, decode: string -> Option<Bytes>)
    ensures forall i :: 0 <= i < |PartsOf(content, decode)| && PartsOf(content, decode)[i].Text? ==>
              PartsOf(content, decode)[i].text != ""
  {
    if content != [] {
      PartsSaySomething(content[..|content| - 1], decode);
      assert DECODE_FAILED != "";
    }
  }

  /** In that case the split gives the parts of the message in order, adjacent
      texts merged. */
  lemma ReparsedInOrder(content: seq<Content>, marker: string, decode: string -> Option<Bytes>)
    requires IsMarker(marker) && SurvivesCleanUp(marker) && TextsMarkerFree(PartsOf(content, decode), marker)
    ensures Reparsed(content, marker, decode) == Merge(PartsOf(content, decode))
  {
    var parts := PartsOf(content, decode);
    PartsAreRendered(content, marker, decode);
    JoinSpelled(parts, marker);
    PartsSaySomething(content, decode);
    MergeKeepsJoin(parts, marker);
    SplitJoinMerged(Merge(parts), marker);
  }
}
