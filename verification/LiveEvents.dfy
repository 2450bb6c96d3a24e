/** The event stream page as text: the frames the server writes and the client's parser (section 9.2 of
    the HTML Living Standard). */
module LiveEvents {
  import opened Basics

  /** What the JSON text of a frame holds, as far as the parser looks at it. */
  datatype Parsed = Parsed(id: Option<string>, hasNextCursor: bool, nextCursor: Option<string>, rest: Id)

  /** `JSON.parse`. */
  const JSON_PARSE: string -> Parsed

  datatype Item = Item(cursor: string, text: string)

  /** `closing` is the JSON text of the object holding `next`. */
  datatype Page = Page(items: seq<Item>, next: Option<string>, closing: string)

  // ---------------------------------------------------------------- the writer

  function FrameLines(x: Item): seq<string> {
    ["id: " + x.cursor, "event: runtime-summary", "data: " + x.text]
  }

  function ClosingLines(page: Page): seq<string> { ["event: checkpoint", "data: " + page.closing] }

  function Join(lines: seq<string>): string {
    if |lines| == 0 then "" else if |lines| == 1 then lines[0] else lines[0] + "\n" + Join(lines[1..])
  }

  function FramesText(frames: seq<seq<string>>): string {
    if |frames| == 0 then "" else Join(frames[0]) + "\n\n" + FramesText(frames[1..])
  }

  function ItemFrames(items: seq<Item>): seq<seq<string>> {
    if |items| == 0 then [] else [FrameLines(items[0])] + ItemFrames(items[1..])
  }

  function Frames(page: Page): seq<seq<string>> {
    [[": inspection batch"]] + ItemFrames(page.items) + [ClosingLines(page)]
  }

  function Write(page: Page): string { FramesText(Frames(page)) }

  // ---------------------------------------------------------------- the parser

  /** `replaceAll('\\r\\n', '\\n')`. */
  function Unix(s: string): string {
    if |s| == 0 then ""
    else if |s| > 1 && s[0] == '\r' && s[1] == '\n' then "\n" + Unix(s[2..])
    else [s[0]] + Unix(s[1..])
  }

  /** Where the first blank line begins, or the length. */
  function Break(s: string): (i: nat)
    ensures i <= |s|
  {
    if |s| < 2 then |s| else if s[0] == '\n' && s[1] == '\n' then 0 else 1 + Break(s[1..])
  }

  /** `split('\\n\\n')`. */
  function SplitFrames(s: string): seq<string>
    decreases |s|
  {
    var i := Break(s);
    if i + 2 > |s| then [s] else [s[..i]] + SplitFrames(s[i + 2..])
  }

  /** `split('\\n')`. */
  function SplitLines(s: string): (lines: seq<string>)
    ensures |lines| > 0
  {
    if |s| == 0 then [""]
    else
      var rest := SplitLines(s[1..]);
      if s[0] == '\n' then [""] + rest else [[s[0]] + rest[0]] + rest[1..]
  }

  /** The white space and line terminators of ECMAScript, which `trim` takes off. */
  predicate Space(c: char) {
    var u := c as int;
    9 <= u <= 13 || u == 0x20 || u == 0xA0 || u == 0x1680 || 0x2000 <= u <= 0x200A || u == 0x2028 || u == 0x2029
    || u == 0x202F || u == 0x205F || u == 0x3000 || u == 0xFEFF
  }

  function TrimStart(s: string): string {
    if |s| > 0 && Space(s[0]) then TrimStart(s[1..]) else s
  }

  function TrimEnd(s: string): string {
    if |s| > 0 && Space(s[|s| - 1]) then TrimEnd(s[..|s| - 1]) else s
  }

  function Trim(s: string): string { TrimEnd(TrimStart(s)) }

  predicate Starts(s: string, prefix: string) { |prefix| <= |s| && s[..|prefix|] == prefix }

  /** The first line with the prefix, without it. */
  function Field(lines: seq<string>, prefix: string): Option<string> {
    if |lines| == 0 then None
    else if Starts(lines[0], prefix) then Some(Trim(lines[0][|prefix|..]))
    else Field(lines[1..], prefix)
  }

  function DataLines(lines: seq<string>): seq<string> {
    if |lines| == 0 then []
    else (if Starts(lines[0], "data:") then [TrimStart(lines[0][5..])] else []) + DataLines(lines[1..])
  }

  datatype Received = Received(id: Option<string>, event: Parsed)

  datatype Batch = Batch(events: seq<Received>, cursor: Option<string>)

  function OrElse(x: Option<string>, y: Option<string>): Option<string> { if x.Some? then x else y }

  /** One frame; an empty id or empty data counts as none. */
  function Step(b: Batch, frame: string): Batch {
    if |Trim(frame)| == 0 || Starts(frame, ":") then b
    else
      var lines := SplitLines(frame);
      var id := Field(lines, "id:");
      var data := Join(DataLines(lines));
      var cursor := if id.Some? && id.value != "" then id else b.cursor;
      if data == "" then Batch(b.events, cursor)
      else
        var parsed := JSON_PARSE(data);
        if Field(lines, "event:") == Some("checkpoint") || parsed.hasNextCursor
        then Batch(b.events, OrElse(parsed.nextCursor, cursor))
        else Batch(b.events + [Received(OrElse(parsed.id, id), parsed)], cursor)
  }

  function Fold(b: Batch, frames: seq<string>): Batch {
    if |frames| == 0 then b else Step(Fold(b, frames[..|frames| - 1]), frames[|frames| - 1])
  }

  function Parse(text: string): Batch { Fold(Batch([], None), SplitFrames(Unix(text))) }

  method ParseBatch(text: string) returns (b: Batch)
    ensures b == Parse(text)
  {
    var frames := SplitFrames(Unix(text));
    b := Batch([], None);
    for i := 0 to |frames|
      invariant b == Fold(Batch([], None), frames[..i])
    {
      assert frames[..i + 1][..i] == frames[..i];
      var frame := frames[i];
      if |Trim(frame)| == 0 || Starts(frame, ":") {
        continue;
      }
      var lines := SplitLines(frame);
      var id := Field(lines, "id:");
      var data := Join(DataLines(lines));
      var cursor := b.cursor;
      if id.Some? && id.value != "" {
        cursor := id;
      }
      if data == "" {
        b := Batch(b.events, cursor);
        continue;
      }
      var parsed := JSON_PARSE(data);
      if Field(lines, "event:") == Some("checkpoint") || parsed.hasNextCursor {
        b := Batch(b.events, OrElse(parsed.nextCursor, cursor));
        continue;
      }
      b := Batch(b.events + [Received(OrElse(parsed.id, id), parsed)], cursor);
    }
    assert frames[..|frames|] == frames;
  }

  // ---------------------------------------------------------------- what encoded text looks like

  predicate Unbroken(s: string) { |s| > 0 && forall i :: 0 <= i < |s| ==> s[i] != '\n' && s[i] != '\r' }

  /** base64url has no space, `JSON.stringify` escapes control characters and an object begins with a
      brace. */
  predicate Encoded(page: Page) {
    && (forall i :: 0 <= i < |page.items| ==>
          && Unbroken(page.items[i].text) && page.items[i].text[0] == '{'
          && Unbroken(page.items[i].cursor) && forall j :: 0 <= j < |page.items[i].cursor| ==>
             !Space(page.items[i].cursor[j]))
    && Unbroken(page.closing) && page.closing[0] == '{'
    && JSON_PARSE(page.closing).hasNextCursor && JSON_PARSE(page.closing).nextCursor == page.next
  }

  /** Each event text is that of an event with its own id. */
  predicate Identified(page: Page) {
    forall i :: 0 <= i < |page.items| ==> JSON_PARSE(page.items[i].text).id.Some?
  }

  // ---------------------------------------------------------------- splitting what was written

  predicate LineFrame(lines: seq<string>) {
    |lines| > 0 && forall i :: 0 <= i < |lines| ==> Unbroken(lines[i])
  }

  lemma {:induction false} JoinUnbroken(lines: seq<string>)
    requires LineFrame(lines)
    ensures |Join(lines)| > 0 && Join(lines)[|Join(lines)| - 1] != '\n' && Join(lines)[0] == lines[0][0]
    ensures forall i :: 0 <= i < |Join(lines)| ==> Join(lines)[i] != '\r'
    ensures forall i :: 0 <= i < |Join(lines)| - 1 ==> Join(lines)[i] != '\n' || Join(lines)[i + 1] != '\n'
  {
    if |lines| > 1 {
      JoinUnbroken(lines[1..]);
      var a, b := lines[0], Join(lines[1..]);
      assert b[0] == lines[1][0] != '\n';
    }
  }

  lemma {:induction false} UnixClean(s: string)
    requires forall i :: 0 <= i < |s| ==> s[i] != '\r'
    ensures Unix(s) == s
  {
    if |s| > 0 { UnixClean(s[1..]); }
  }

  lemma {:induction false} TextClean(frames: seq<seq<string>>)
    requires forall i :: 0 <= i < |frames| ==> LineFrame(frames[i])
    ensures forall i :: 0 <= i < |FramesText(frames)| ==> FramesText(frames)[i] != '\r'
  {
    if |frames| > 0 {
      JoinUnbroken(frames[0]);
      TextClean(frames[1..]);
    }
  }

  /** The first blank line is the one that ends the first frame. */
  lemma {:induction false} BreakAfter(s: string, rest: string)
    requires |s| > 0 && s[|s| - 1] != '\n'
    requires forall i :: 0 <= i < |s| - 1 ==> s[i] != '\n' || s[i + 1] != '\n'
    ensures Break(s + "\n\n" + rest) == |s|
  {
    var t := s + "\n\n" + rest;
    if |s| > 1 {
      assert t[1..] == s[1..] + "\n\n" + rest;
      BreakAfter(s[1..], rest);
    } else {
      assert t[1..] == "\n\n" + rest;
      assert Break(t[1..]) == 0;
    }
  }

  function Texts(frames: seq<seq<string>>): seq<string> {
    if |frames| == 0 then [] else [Join(frames[0])] + Texts(frames[1..])
  }

  lemma {:induction false} SplitsFrames(frames: seq<seq<string>>)
    requires forall i :: 0 <= i < |frames| ==> LineFrame(frames[i])
    ensures SplitFrames(FramesText(frames)) == Texts(frames) + [""]
  {
    if |frames| > 0 {
      var s, rest := Join(frames[0]), FramesText(frames[1..]);
      JoinUnbroken(frames[0]);
      BreakAfter(s, rest);
      SplitsFrames(frames[1..]);
      var t := s + "\n\n" + rest;
      assert t[..|s|] == s && t[|s| + 2..] == rest;
      assert SplitFrames(t) == [s] + SplitFrames(rest);
    }
  }

  lemma {:induction false} LineSplits(line: string, rest: string)
    requires Unbroken(line)
    ensures SplitLines(line + "\n" + rest) == [line] + SplitLines(rest)
    ensures SplitLines(line) == [line]
    decreases |line|
  {
    var t := line + "\n" + rest;
    if |line| > 1 {
      LineSplits(line[1..], rest);
      assert t[1..] == line[1..] + "\n" + rest;
      assert line == [line[0]] + line[1..];
    } else {
      assert t[1..] == "\n" + rest && ("\n" + rest)[1..] == rest;
      assert line[1..] == "" && [line[0]] + "" == line;
      assert SplitLines(t[1..]) == [""] + SplitLines(rest);
      assert SplitLines(t) == [[t[0]] + ""] + SplitLines(rest);
      assert SplitLines(line[1..]) == [""];
    }
  }

  lemma {:induction false} JoinSplits(lines: seq<string>)
    requires LineFrame(lines)
    ensures SplitLines(Join(lines)) == lines
  {
    if |lines| == 1 {
      LineSplits(lines[0], "");
    } else {
      JoinSplits(lines[1..]);
      LineSplits(lines[0], Join(lines[1..]));
      assert lines == [lines[0]] + lines[1..];
    }
  }

  // ---------------------------------------------------------------- parsing one written frame

  lemma TrimsOne(s: string)
    requires |s| > 0 && !Space(s[0])
    ensures TrimStart(" " + s) == s
  {
    assert (" " + s)[1..] == s;
  }

  lemma TrimsCursor(s: string)
    requires |s| > 0 && forall i :: 0 <= i < |s| ==> !Space(s[i])
    ensures Trim(" " + s) == s
  {
    TrimsOne(s);
  }

  lemma {:induction false} TrimEndKeeps(s: string)
    requires |s| > 0 && !Space(s[0])
    ensures |TrimEnd(s)| > 0
  {
    if |s| > 1 && Space(s[|s| - 1]) { TrimEndKeeps(s[..|s| - 1]); }
  }

  lemma NotBlank(s: string)
    requires |s| > 0 && !Space(s[0])
    ensures |Trim(s)| > 0
  {
    TrimEndKeeps(s);
  }

  lemma NotStarts(s: string, prefix: string)
    requires |s| > 0 && |prefix| > 0 && s[0] != prefix[0]
    ensures !Starts(s, prefix)
  {
    if |prefix| <= |s| { assert s[..|prefix|][0] == s[0]; }
  }

  /** A line made of a prefix, a space and a content. */
  lemma Content(prefix: string, content: string)
    ensures Starts(prefix + (" " + content), prefix) && (prefix + (" " + content))[|prefix|..] == " " + content
  {
  }

  /** The fields of a block read off its first line, for the prefix of that line and another one. */
  lemma TwoLines(own: string, other: string, line: string, rest: seq<string>)
    ensures Starts(line, own) ==> Field([line] + rest, own) == Some(Trim(line[|own|..]))
    ensures !Starts(line, other) ==> Field([line] + rest, other) == Field(rest, other)
    ensures DataLines([line] + rest) == (if Starts(line, "data:") then [TrimStart(line[5..])] else []) + DataLines(rest)
    ensures DataLines([]) == []
  {
    assert ([line] + rest)[1..] == rest;
  }

  /** The three lines of an event, each read under its own prefix and no other. */
  lemma ReadsCursor(cursor: string)
    requires |cursor| > 0 && forall j :: 0 <= j < |cursor| ==> !Space(cursor[j])
    ensures var line := "id: " + cursor;
            Starts(line, "id:") && Trim(line[3..]) == cursor && !Starts(line, "event:") && !Starts(line, "data:")
  {
    assert "id: " + cursor == "id:" + (" " + cursor);
    Content("id:", cursor);
    TrimsCursor(cursor);
    NotStarts("id: " + cursor, "event:");
    NotStarts("id: " + cursor, "data:");
  }

  lemma ReadsEvent(event: string)
    requires |event| > 0 && forall j :: 0 <= j < |event| ==> !Space(event[j])
    ensures var line := "event: " + event; Starts(line, "event:") && Trim(line[6..]) == event && !Starts(line, "id:")
                                           && !Starts(line, "data:")
  {
    assert "event: " + event == "event:" + (" " + event);
    Content("event:", event);
    TrimsCursor(event);
    NotStarts("event: " + event, "id:");
    NotStarts("event: " + event, "data:");
  }

  lemma ReadsData(text: string)
    requires |text| > 0 && text[0] == '{'
    ensures var line := "data: " + text; Starts(line, "data:") && TrimStart(line[5..]) == text && !Starts(line, "id:")
  {
    assert "data: " + text == "data:" + (" " + text);
    Content("data:", text);
    TrimsOne(text);
    NotStarts("data: " + text, "id:");
  }

  lemma ItemFields(x: Item)
    requires |x.cursor| > 0 && forall j :: 0 <= j < |x.cursor| ==> !Space(x.cursor[j])
    requires |x.text| > 0 && x.text[0] == '{'
    ensures var lines := FrameLines(x);
            && Field(lines, "id:") == Some(x.cursor) && Field(lines, "event:") == Some("runtime-summary")
            && DataLines(lines) == [x.text]
  {
    var a, b, c := "id: " + x.cursor, "event: runtime-summary", "data: " + x.text;
    assert b == "event: " + "runtime-summary";
    ReadsCursor(x.cursor);
    ReadsEvent("runtime-summary");
    ReadsData(x.text);
    TwoLines("id:", "event:", a, [b, c]);
    TwoLines("event:", "data:", b, [c]);
    TwoLines("data:", "data:", c, []);
    hide Starts, Trim, TrimStart, Space, Field, DataLines;
    assert [a, b, c] == [a] + [b, c] && [b, c] == [b] + [c] && [c] == [c] + [];
    assert FrameLines(x) == [a, b, c] && [x.text] + [] == [x.text];
  }

  lemma ClosingFields(page: Page)
    requires |page.closing| > 0 && page.closing[0] == '{'
    ensures var lines := ClosingLines(page);
            && Field(lines, "id:") == None && Field(lines, "event:") == Some("checkpoint")
            && DataLines(lines) == [page.closing]
  {
    var b, c := "event: checkpoint", "data: " + page.closing;
    assert b == "event: " + "checkpoint";
    ReadsEvent("checkpoint");
    ReadsData(page.closing);
    hide Starts, Trim, TrimStart, Space;
    assert ClosingLines(page)[1..] == [c] && [c][1..] == [];
    assert Field([c], "id:") == None && DataLines([c]) == [page.closing];
  }

  // ---------------------------------------------------------------- the round trip

  /** The effect of one event of the page. */
  function StepItem(b: Batch, x: Item): Batch {
    var parsed := JSON_PARSE(x.text);
    if parsed.hasNextCursor then Batch(b.events, OrElse(parsed.nextCursor, Some(x.cursor)))
    else Batch(b.events + [Received(OrElse(parsed.id, Some(x.cursor)), parsed)], Some(x.cursor))
  }

  function StepItems(b: Batch, items: seq<Item>): Batch {
    if |items| == 0 then b else StepItem(StepItems(b, items[..|items| - 1]), items[|items| - 1])
  }

  lemma FirstUnits(lines: seq<string>)
    requires LineFrame(lines) && !Space(lines[0][0]) && lines[0][0] != ':'
    ensures |Trim(Join(lines))| > 0 && !Starts(Join(lines), ":")
  {
    JoinUnbroken(lines);
    NotBlank(Join(lines));
    NotStarts(Join(lines), ":");
  }

  lemma ItemLines(x: Item)
    requires Unbroken(x.cursor) && Unbroken(x.text)
    ensures LineFrame(FrameLines(x)) && !Space(FrameLines(x)[0][0]) && FrameLines(x)[0][0] != ':'
  {
  }

  lemma ItemSteps(b: Batch, x: Item)
    requires Unbroken(x.cursor) && (forall j :: 0 <= j < |x.cursor| ==> !Space(x.cursor[j])) && Unbroken(x.text)
             && x.text[0] == '{'
    ensures Step(b, Join(FrameLines(x))) == StepItem(b, x)
  {
    ItemLines(x);
    ItemFields(x);
    FirstUnits(FrameLines(x));
    JoinSplits(FrameLines(x));
    hide FrameLines, Field, DataLines, Trim, Starts, SplitLines;
    assert Join([x.text]) == x.text;
  }

  lemma ClosingSteps(b: Batch, page: Page)
    requires Encoded(page)
    ensures Step(b, Join(ClosingLines(page))) == Batch(b.events, OrElse(page.next, b.cursor))
  {
    assert LineFrame(ClosingLines(page));
    ClosingFields(page);
    FirstUnits(ClosingLines(page));
    JoinSplits(ClosingLines(page));
    hide ClosingLines, Field, DataLines, Trim, Starts, SplitLines;
    assert Join([page.closing]) == page.closing;
  }

  lemma {:induction false} FoldJoins(b: Batch, xs: seq<string>, ys: seq<string>)
    ensures Fold(b, xs + ys) == Fold(Fold(b, xs), ys)
  {
    hide Step;
    if |ys| == 0 {
      assert xs + ys == xs;
    } else {
      assert (xs + ys)[..|xs + ys| - 1] == xs + ys[..|ys| - 1];
      FoldJoins(b, xs, ys[..|ys| - 1]);
    }
  }

  lemma FoldOne(b: Batch, x: string)
    ensures Fold(b, [x]) == Step(b, x)
  {
    assert [x][..0] == [];
    assert Fold(b, []) == b;
  }

  lemma {:induction false} TextsJoin(xs: seq<seq<string>>, ys: seq<seq<string>>)
    ensures Texts(xs + ys) == Texts(xs) + Texts(ys)
  {
    if |xs| == 0 {
      assert xs + ys == ys;
    } else {
      assert (xs + ys)[0] == xs[0] && (xs + ys)[1..] == xs[1..] + ys;
      TextsJoin(xs[1..], ys);
    }
  }

  lemma {:induction false} ItemFramesJoin(xs: seq<Item>, ys: seq<Item>)
    ensures ItemFrames(xs + ys) == ItemFrames(xs) + ItemFrames(ys)
  {
    hide FrameLines;
    if |xs| == 0 {
      assert xs + ys == ys;
    } else {
      assert (xs + ys)[0] == xs[0] && (xs + ys)[1..] == xs[1..] + ys;
      ItemFramesJoin(xs[1..], ys);
    }
  }

  predicate ItemEncoded(x: Item) {
    Unbroken(x.text) && x.text[0] == '{' && Unbroken(x.cursor) && forall j :: 0 <= j < |x.cursor| ==>
      !Space(x.cursor[j])
  }

  lemma {:induction false} ItemsStep(b: Batch, items: seq<Item>)
    requires forall i :: 0 <= i < |items| ==> ItemEncoded(items[i])
    ensures Fold(b, Texts(ItemFrames(items))) == StepItems(b, items)
  {
    hide Step, StepItem, FrameLines;
    if |items| > 0 {
      var init, x := items[..|items| - 1], items[|items| - 1];
      ItemsStep(b, init);
      assert items == init + [x] && ItemEncoded(x);
      ItemFramesJoin(init, [x]);
      OneFrame(x);
      TextsJoin(ItemFrames(init), [FrameLines(x)]);
      FoldJoins(b, Texts(ItemFrames(init)), [Join(FrameLines(x))]);
      FoldOne(StepItems(b, init), Join(FrameLines(x)));
      ItemSteps(StepItems(b, init), x);
    }
  }

  lemma OneFrame(x: Item)
    ensures ItemFrames([x]) == [FrameLines(x)] && Texts([FrameLines(x)]) == [Join(FrameLines(x))]
  {
    assert [x][1..] == [] && [FrameLines(x)][1..] == [];
    assert ItemFrames([]) == [] && Texts([]) == [];
  }

  lemma {:induction false} ItemFramesLines(items: seq<Item>)
    requires forall i :: 0 <= i < |items| ==> ItemEncoded(items[i])
    ensures forall i :: 0 <= i < |ItemFrames(items)| ==> LineFrame(ItemFrames(items)[i])
  {
    hide FrameLines, LineFrame;
    if |items| > 0 {
      ItemFramesLines(items[1..]);
      ItemLines(items[0]);
    }
  }

  lemma FramesLines(page: Page)
    requires Encoded(page)
    ensures forall i :: 0 <= i < |Frames(page)| ==> LineFrame(Frames(page)[i])
  {
    ItemsEncoded(page);
    ItemFramesLines(page.items);
    assert LineFrame(ClosingLines(page));
    assert LineFrame([": inspection batch"]);
  }

  lemma ItemsEncoded(page: Page)
    requires Encoded(page)
    ensures forall i :: 0 <= i < |page.items| ==> ItemEncoded(page.items[i])
  {
  }

  /** What the parser makes of a written page, event by event and then the checkpoint. */
  lemma ParseOfWritten(page: Page)
    requires Encoded(page)
    ensures var b := StepItems(Batch([], None), page.items);
            Parse(Write(page)) == Batch(b.events, OrElse(page.next, b.cursor))
  {
    FramesLines(page);
    ItemsEncoded(page);
    var none := Batch([], None);
    var xs := [[": inspection batch"]];
    var ys := ItemFrames(page.items);
    var zs := [ClosingLines(page)];
    TextClean(Frames(page));
    UnixClean(Write(page));
    SplitsFrames(Frames(page));
    HeaderSteps(none);
    ClosingSteps(StepItems(none, page.items), page);
    BlankSteps(Step(StepItems(none, page.items), Join(ClosingLines(page))));
    ItemsStep(none, page.items);
    hide Step, Join, FrameLines, ClosingLines, StepItems, FramesText, SplitFrames, Unix, ItemFrames;
    TextsJoin(xs + ys, zs);
    TextsJoin(xs, ys);
    assert Texts(xs) == [Join(xs[0])] && Texts(zs) == [Join(zs[0])] by { OneText(xs[0]); OneText(zs[0]); }
    var texts := Texts(xs) + Texts(ys) + Texts(zs) + [""];
    assert Texts(Frames(page)) + [""] == texts;
    FoldJoins(none, Texts(xs) + Texts(ys) + Texts(zs), [""]);
    FoldJoins(none, Texts(xs) + Texts(ys), Texts(zs));
    FoldJoins(none, Texts(xs), Texts(ys));
    FoldOne(none, Join(xs[0]));
    FoldOne(StepItems(none, page.items), Join(zs[0]));
    FoldOne(Step(StepItems(none, page.items), Join(zs[0])), "");
  }

  lemma OneText(lines: seq<string>)
    ensures Texts([lines]) == [Join(lines)]
  {
    assert [lines][1..] == [] && Texts([]) == [];
  }

  lemma HeaderSteps(b: Batch)
    ensures Step(b, Join([": inspection batch"])) == b
  {
    assert (": inspection batch")[..1] == ":";
  }

  lemma BlankSteps(b: Batch)
    ensures Step(b, "") == b
  {
  }

  lemma {:induction false} PlainItems(b: Batch, items: seq<Item>)
    requires forall i :: 0 <= i < |items| ==>
             !JSON_PARSE(items[i].text).hasNextCursor && JSON_PARSE(items[i].text).id.Some?
    ensures var p := StepItems(b, items);
            && |p.events| == |b.events| + |items|
            && (forall i :: 0 <= i < |b.events| ==> p.events[i] == b.events[i])
            && (forall i :: 0 <= i < |items| ==>
               p.events[|b.events| + i] == Received(JSON_PARSE(items[i].text).id, JSON_PARSE(items[i].text)))
            && p.cursor == (if |items| == 0 then b.cursor else Some(items[|items| - 1].cursor))
  {
    if |items| > 0 { PlainItems(b, items[..|items| - 1]); }
  }

  lemma {:induction false} FewerEvents(b: Batch, items: seq<Item>)
    ensures |StepItems(b, items).events| <= |b.events| + |items|
    ensures (exists i :: 0 <= i < |items| && JSON_PARSE(items[i].text).hasNextCursor) ==>
            |StepItems(b, items).events| < |b.events| + |items|
  {
    if |items| > 0 { FewerEvents(b, items[..|items| - 1]); }
  }

  /** Round trip: parsing what was written gives the page's events in order, and the next cursor or the
      cursor of the last event, whenever no event carries a `nextCursor` of its own. */
  lemma RoundTrip(page: Page)
    requires Encoded(page) && Identified(page)
    requires forall i :: 0 <= i < |page.items| ==> !JSON_PARSE(page.items[i].text).hasNextCursor
    ensures var b := Parse(Write(page));
            && |b.events| == |page.items|
            && (forall i :: 0 <= i < |page.items| ==>
               b.events[i] == Received(JSON_PARSE(page.items[i].text).id, JSON_PARSE(page.items[i].text)))
            && b.cursor == OrElse(page.next,
               if |page.items| == 0 then None else Some(page.items[|page.items| - 1].cursor))
  {
    hide Parse, Write, Encoded;
    ParseOfWritten(page);
    PlainItems(Batch([], None), page.items);
  }

  /** A page of one event that carries that key: the event is lost. */
  lemma CursorEventIsLost(x: Item, next: Option<string>, closing: string)
    requires Encoded(Page([x], next, closing)) && JSON_PARSE(x.text).hasNextCursor
    ensures Parse(Write(Page([x], next, closing))).events == []
  {
    hide Parse, Write, Encoded;
    ParseOfWritten(Page([x], next, closing));
    assert [x][..0] == [];
    assert StepItems(Batch([], None), [x]) == StepItem(Batch([], None), x);
  }

  /** The condition is exact: an event with that key is taken for a checkpoint and lost. */
  lemma RoundTripIff(page: Page)
    requires Encoded(page) && Identified(page)
    ensures |Parse(Write(page)).events| == |page.items| <==>
            forall i :: 0 <= i < |page.items| ==> !JSON_PARSE(page.items[i].text).hasNextCursor
  {
    hide Parse, Write, Encoded;
    ParseOfWritten(page);
    FewerEvents(Batch([], None), page.items);
    if forall i :: 0 <= i < |page.items| ==> !JSON_PARSE(page.items[i].text).hasNextCursor {
      PlainItems(Batch([], None), page.items);
    }
  }

  // ---------------------------------------------------------------- the client's buffer

  function IdOf(x: Received): string { if x.id.Some? then x.id.value else "" }

  /** No id occurs twice; events without one are not compared. */
  predicate DistinctIds(xs: seq<Received>) {
    forall i, j :: 0 <= i < j < |xs| && IdOf(xs[i]) != "" ==> IdOf(xs[i]) != IdOf(xs[j])
  }

  predicate Has(xs: seq<Received>, id: string) { exists i :: 0 <= i < |xs| && IdOf(xs[i]) == id }

  /** The events of the first `n` that are taken, newest first: those without an id, and those whose id is
      not there yet. */
  function Fresh(buffer: seq<Received>, incoming: seq<Received>, n: nat): seq<Received>
    requires n <= |incoming|
  {
    if n == 0 then []
    else
      var taken := Fresh(buffer, incoming, n - 1);
      var id := IdOf(incoming[n - 1]);
      if id != "" && Has(taken + buffer, id) then taken else [incoming[n - 1]] + taken
  }

  /** The set of ids kept beside the merged buffer. */
  method Merge(buffer: seq<Received>, incoming: seq<Received>) returns (merged: seq<Received>)
    ensures merged == Fresh(buffer, incoming, |incoming|) + buffer
  {
    var seen := set x | x in buffer :: IdOf(x);
    merged := buffer;
    for i := 0 to |incoming|
      invariant merged == Fresh(buffer, incoming, i) + buffer
      invariant forall id :: id != "" ==> (id in seen <==> Has(merged, id))
    {
      var id := IdOf(incoming[i]);
      if id != "" && id in seen {
        continue;
      }
      Fronts(incoming[i], merged);
      hide Has, DistinctIds, IdOf;
      if id != "" {
        seen := seen + {id};
      }
      assert [incoming[i]] + Fresh(buffer, incoming, i) + buffer == [incoming[i]]
        + (Fresh(buffer, incoming, i) + buffer);
      merged := [incoming[i]] + merged;
    }
  }

  lemma Fronts(x: Received, xs: seq<Received>)
    ensures forall id :: Has([x] + xs, id) <==> Has(xs, id) || id == IdOf(x)
    ensures DistinctIds(xs) && (IdOf(x) == "" || !Has(xs, IdOf(x))) ==> DistinctIds([x] + xs)
  {
    forall id ensures Has([x] + xs, id) <==> Has(xs, id) || id == IdOf(x) {
      if Has(xs, id) {
        var i :| 0 <= i < |xs| && IdOf(xs[i]) == id;
        assert ([x] + xs)[i + 1] == xs[i];
      }
      assert ([x] + xs)[0] == x;
    }
  }

  /** Merging keeps ids distinct, loses no id and takes nothing from elsewhere. */
  lemma {:induction false} FreshKeeps(buffer: seq<Received>, incoming: seq<Received>, n: nat)
    requires n <= |incoming|
    ensures |Fresh(buffer, incoming, n)| <= n
    ensures DistinctIds(buffer) ==> DistinctIds(Fresh(buffer, incoming, n) + buffer)
    ensures forall id :: id != "" ==>
            (Has(Fresh(buffer, incoming, n) + buffer, id) <==> Has(buffer, id) || Has(incoming[..n], id))
    ensures forall x :: x in Fresh(buffer, incoming, n) ==> x in incoming[..n]
  {
    hide IdOf;
    if n == 0 {
      assert [] + buffer == buffer;
    } else {
      FreshKeeps(buffer, incoming, n - 1);
      var x, taken := incoming[n - 1], Fresh(buffer, incoming, n - 1);
      Fronts(x, taken + buffer);
      assert [x] + taken + buffer == [x] + (taken + buffer);
      assert incoming[..n] == incoming[..n - 1] + [x];
      HasLast(incoming[..n - 1], x);
      hide Has, DistinctIds;
    }
  }

  lemma HasLast(xs: seq<Received>, x: Received)
    ensures forall id :: Has(xs + [x], id) <==> Has(xs, id) || id == IdOf(x)
  {
    forall id ensures Has(xs + [x], id) <==> Has(xs, id) || id == IdOf(x) {
      if Has(xs, id) {
        var i :| 0 <= i < |xs| && IdOf(xs[i]) == id;
        assert (xs + [x])[i] == xs[i];
      }
      assert (xs + [x])[|xs|] == x;
    }
  }

  /** The merged buffer, newest events first, cut off behind: what is dropped is the oldest. */
  method AppendDeduped(buffer: seq<Received>, incoming: seq<Received>, max: int) returns (result: seq<Received>)
    ensures var all, keep := Fresh(buffer, incoming, |incoming|) + buffer, if max > 1 then max else 1;
            result == if |all| <= keep then all else all[..keep]
    ensures DistinctIds(buffer) ==> DistinctIds(result)
    ensures |buffer| + |incoming| <= max ==> forall id :: id != "" ==>
            (Has(result, id) <==> Has(buffer, id) || Has(incoming, id))
  {
    var merged := Merge(buffer, incoming);
    FreshKeeps(buffer, incoming, |incoming|);
    assert incoming[..|incoming|] == incoming;
    hide Has, Fresh;
    var keep := if max > 1 then max else 1;
    result := if |merged| <= keep then merged else merged[..keep];
  }

  // ---------------------------------------------------------------- the event stream standard

  /** The buffers of section 9.2.6 of the HTML Living Standard. */
  datatype Buffers = Buffers(data: string, event: string, id: string)

  datatype Message = Message(event: string, data: string, id: string)

  /** A field's value is what follows its colon, without one leading space. */
  function FieldValue(s: string): string { if |s| > 0 && s[0] == ' ' then s[1..] else s }

  /** One line of a block: one that begins with a colon is a comment, an id with a null character is ignored.
      Fields without a colon are never written and are left out here. */
  function ReadLine(b: Buffers, line: string): Buffers {
    if Starts(line, ":") then b
    else if Starts(line, "event:") then b.(event := FieldValue(line[6..]))
    else if Starts(line, "data:") then b.(data := b.data + FieldValue(line[5..]) + "\n")
    else if Starts(line, "id:") then if '\0' in line[3..] then b else b.(id := FieldValue(line[3..]))
    else b
  }

  function ReadLines(b: Buffers, lines: seq<string>): Buffers {
    if |lines| == 0 then b else ReadLine(ReadLines(b, lines[..|lines| - 1]), lines[|lines| - 1])
  }

  /** The end of a block: without data nothing is dispatched. */
  function DispatchOf(b: Buffers): Option<Message> {
    if b.data == "" then None else Some(Message(b.event, b.data[..|b.data| - 1], b.id))
  }

  /** A client that follows the standard reads from each written frame the same text as the parser, and the
      same cursor unless that holds a null character, which the parser accepts. */
  lemma StandardReadsAlike(x: Item, last: string)
    requires Unbroken(x.text) && x.text[0] == '{'
    requires Unbroken(x.cursor) && forall j :: 0 <= j < |x.cursor| ==> !Space(x.cursor[j])
    ensures var lines := FrameLines(x);
            var message := DispatchOf(ReadLines(Buffers("", "", last), lines));
            && message == Some(Message("runtime-summary", x.text, if '\0' in x.cursor then last else x.cursor))
            && Field(lines, "event:") == Some(message.value.event) && Join(DataLines(lines)) == message.value.data
            && Field(lines, "id:") == Some(x.cursor)
            && (Field(lines, "id:") == Some(message.value.id) <==> '\0' !in x.cursor || last == x.cursor)
  {
    StandardReads(x, last);
    hide Trim, TrimStart, TrimEnd, ReadLines;
    ItemFields(x);
  }

  /** What the three lines of a frame do to the buffers. */
  lemma ReadsFields(b: Buffers, content: string)
    ensures ReadLine(b, "id: " + content) == if '\0' in content then b else b.(id := content)
    ensures ReadLine(b, "event: " + content) == b.(event := content)
    ensures ReadLine(b, "data: " + content) == b.(data := b.data + content + "\n")
  {
    var id, event, data := "id: " + content, "event: " + content, "data: " + content;
    assert id == "id:" + (" " + content) && event == "event:" + (" " + content) && data == "data:" + (" " + content);
    Content("id:", content);
    Content("event:", content);
    Content("data:", content);
    NotStarts(id, ":");
    NotStarts(id, "event:");
    NotStarts(id, "data:");
    NotStarts(event, ":");
    NotStarts(data, ":");
    NotStarts(data, "event:");
    assert id[3..] == [' '] + content;
    hide Starts;
  }

  lemma StandardReads(x: Item, last: string)
    ensures DispatchOf(ReadLines(Buffers("", "", last), FrameLines(x)))
         == Some(Message("runtime-summary", x.text, if '\0' in x.cursor then last else x.cursor))
  {
    var id := if '\0' in x.cursor then last else x.cursor;
    var lines, b := FrameLines(x), Buffers("", "", last);
    assert lines[..2] == [lines[0], lines[1]] && lines[..2][..1] == [lines[0]] && lines[..2][..1][..0] == [];
    assert lines[1] == "event: " + "runtime-summary";
    ReadsFields(b, x.cursor);
    ReadsFields(Buffers("", "", id), "runtime-summary");
    ReadsFields(Buffers("", "runtime-summary", id), x.text);
    hide ReadLine;
    assert ReadLines(b, lines[..2][..1]) == Buffers("", "", id);
    assert ReadLines(b, lines[..2]) == Buffers("", "runtime-summary", id);
    assert "" + x.text + "\n" == x.text + "\n";
  }
}
