/** The rewriter of the documentation tool (hack/embed-docs/main.go): fenced blocks between markers take the contents of a file. */
module EmbedDocs {
  import opened Refs

  // ---- Text and lines ----

  function Split(text: string): (lines: seq<string>)
    ensures lines != []
  {
    if text == "" then [""]
    else
      var rest := Split(text[1..]);
      if text[0] == '\n' then [""] + rest else [[text[0]] + rest[0]] + rest[1..]
  }

  function Join(lines: seq<string>): string {
    if lines == [] then "" else if |lines| == 1 then lines[0] else lines[0] + "\n" + Join(lines[1..])
  }

  function TrimNewlines(text: string): string {
    if text != "" && text[|text| - 1] == '\n' then TrimNewlines(text[..|text| - 1]) else text
  }

  /** What is trimmed: the rest is a prefix that does not end in a newline, and only newlines are cut off. */
  ghost predicate IsTrimmed(text: string, r: string) {
    r <= text && (r != "" ==> r[|r| - 1] != '\n') && forall k :: |r| <= k < |text| ==> text[k] == '\n'
  }

  lemma {:induction false} TrimmedIs(text: string)
    ensures IsTrimmed(text, TrimNewlines(text))
  {
    if text != "" && text[|text| - 1] == '\n' {
      TrimmedIs(text[..|text| - 1]);
    }
  }

  /** The lines of a list whose elements may themselves hold several lines. */
  function Lines(parts: seq<string>): seq<string> {
    if parts == [] then [] else Split(parts[0]) + Lines(parts[1..])
  }

  ghost predicate SingleLines(lines: seq<string>) {
    forall l :: l in lines ==> '\n' !in l
  }

  lemma {:induction false} SplitGivesSingleLines(text: string)
    ensures SingleLines(Split(text))
  {
    if text != "" {
      SplitGivesSingleLines(text[1..]);
      var rest := Split(text[1..]);
      assert rest[0] in rest;
    }
  }

  lemma {:induction false} SplitSingle(line: string)
    requires '\n' !in line
    ensures Split(line) == [line]
  {
    if line != "" {
      SplitSingle(line[1..]);
      assert [line[0]] + line[1..] == line;
    }
  }

  lemma SplitFirst(c: char, text: string)
    ensures Split([c] + text) == if c == '\n' then [""] + Split(text) else Prepended(c, Split(text))
  {
    assert ([c] + text)[0] == c && ([c] + text)[1..] == text;
  }

  /** What Split does with a first character that is not a newline. */
  function Prepended(c: char, lines: seq<string>): seq<string>
    requires lines != []
  {
    [[c] + lines[0]] + lines[1..]
  }

  lemma PrependedAppend(c: char, front: seq<string>, rest: seq<string>)
    requires front != []
    ensures Prepended(c, front + rest) == Prepended(c, front) + rest
  {
    assert (front + rest)[0] == front[0];
    assert (front + rest)[1..] == front[1..] + rest;
  }

  lemma HeadOut(c: char, tail: string, b: string)
    ensures [c] + tail + "\n" + b == [c] + (tail + "\n" + b)
  {}

  lemma PrependedEmpty(a: seq<string>, b: seq<string>)
    ensures [""] + (a + b) == ([""] + a) + b
  {}

  lemma {:induction false} SplitAtNewline(a: string, b: string)
    ensures Split(a + "\n" + b) == Split(a) + Split(b)
  {
    if a == "" {
      assert a + "\n" + b == ['\n'] + b;
      SplitFirst('\n', b);
    } else {
      var c, tail := a[0], a[1..];
      SplitAtNewline(tail, b);
      SplitFirst(c, tail);
      SplitFirst(c, tail + "\n" + b);
      hide Split;
      assert a == [c] + tail;
      HeadOut(c, tail, b);
      if c == '\n' {
        PrependedEmpty(Split(tail), Split(b));
      } else {
        PrependedAppend(c, Split(tail), Split(b));
        hide Prepended;
      }
    }
  }

  /** Joining and splitting again gives the lines of all parts. */
  lemma {:induction false} SplitJoin(parts: seq<string>)
    requires parts != []
    ensures Split(Join(parts)) == Lines(parts)
  {
    if |parts| == 1 {
      assert Lines(parts[1..]) == [];
    } else {
      SplitAtNewline(parts[0], Join(parts[1..]));
      SplitJoin(parts[1..]);
    }
  }

  lemma {:induction false} JoinSplit(text: string)
    ensures Join(Split(text)) == text
  {
    if text != "" {
      JoinSplit(text[1..]);
      var rest := Split(text[1..]);
      if text[0] == '\n' {
        assert ([""] + rest)[1..] == rest;
        assert "" + "\n" + text[1..] == text;
      } else {
        var lines := [[text[0]] + rest[0]] + rest[1..];
        if |rest| > 1 {
          assert lines[1..] == rest[1..];
          assert ([text[0]] + rest[0]) + "\n" + Join(rest[1..]) == [text[0]] + (rest[0] + "\n" + Join(rest[1..]));
        }
        assert [text[0]] + text[1..] == text;
      }
    }
  }

  lemma {:induction false} LinesOfSingle(lines: seq<string>)
    requires SingleLines(lines)
    ensures Lines(lines) == lines
  {
    if lines != [] {
      assert lines[0] in lines;
      SplitSingle(lines[0]);
      LinesOfSingle(lines[1..]);
    }
  }

  lemma {:induction false} LinesConcat(a: seq<string>, b: seq<string>)
    ensures Lines(a + b) == Lines(a) + Lines(b)
  {
    if a == [] {
      assert a + b == b;
    } else {
      assert (a + b)[1..] == a[1..] + b;
      LinesConcat(a[1..], b);
    }
  }

  // ---- The scan ----

  /** marker gives the path named by an inject marker; isEnd recognises the end marker, blank a line of white space. */
  datatype Env = Env(marker: string -> Option<string>, isEnd: string -> bool, blank: string -> bool, read: string -> Option<string>)

  const FENCE := "```"

  datatype Error = Panic | NoOpeningFence | NoClosingFence | Unreadable | NoEndMarker

  datatype Outcome = Done(lines: seq<string>) | Failed(error: Error)

  function Prefixed(front: seq<string>, o: Outcome): Outcome {
    match o
    case Done(lines) => Done(front + lines)
    case Failed(_) => o
  }

  function SkipBody(lines: seq<string>, i: nat): (j: nat)
    requires i <= |lines|
    ensures i <= j <= |lines| && FENCE !in lines[i..j] && (j < |lines| ==> lines[j] == FENCE)
    decreases |lines| - i
  {
    if i < |lines| && lines[i] != FENCE then
      var j := SkipBody(lines, i + 1);
      assert lines[i..j] == [lines[i]] + lines[i + 1..j];
      j
    else i
  }

  function SkipBlank(env: Env, lines: seq<string>, i: nat): (j: nat)
    requires i <= |lines|
    ensures i <= j <= |lines| && (forall l :: l in lines[i..j] ==> env.blank(l)) && (j < |lines| ==> !env.blank(lines[j]))
    decreases |lines| - i
  {
    if i < |lines| && env.blank(lines[i]) then
      var j := SkipBlank(env, lines, i + 1);
      assert lines[i..j] == [lines[i]] + lines[i + 1..j];
      j
    else i
  }

  /** Where the fence of the block at i closes, and where its end marker should be; |lines| if there is none. */
  function CloseOf(lines: seq<string>, i: nat): (j: nat)
    ensures j <= |lines| && (j < |lines| ==> i + 2 <= j && lines[j] == FENCE && FENCE !in lines[i + 2..j])
  {
    if i + 2 <= |lines| then SkipBody(lines, i + 2) else |lines|
  }

  function EndOf(env: Env, lines: seq<string>, i: nat): (j: nat)
    ensures var close := CloseOf(lines, i);
            && j <= |lines|
            && (j < |lines| ==> close < j && !env.blank(lines[j]) && forall l :: l in lines[close + 1..j] ==> env.blank(l))
  {
    var close := CloseOf(lines, i);
    if close < |lines| then SkipBlank(env, lines, close + 1) else |lines|
  }

  /** The first thing wrong with the block at i. For a marker in the last line the error message reads past the end. */
  function Problem(env: Env, lines: seq<string>, i: nat): Option<Error>
    requires i < |lines| && env.marker(lines[i]).Some?
  {
    if i + 1 == |lines| then Some(Panic)
    else if !(FENCE <= lines[i + 1]) then Some(NoOpeningFence)
    else if CloseOf(lines, i) == |lines| then Some(NoClosingFence)
    else if env.read(env.marker(lines[i]).value).None? then Some(Unreadable)
    else if EndOf(env, lines, i) == |lines| || !env.isEnd(lines[EndOf(env, lines, i)]) then Some(NoEndMarker)
    else None
  }

  /** The block at i with the contents of its file for a body; the new body is one element of several lines. */
  function Rewritten(env: Env, lines: seq<string>, i: nat): seq<string>
    requires i < |lines| && env.marker(lines[i]).Some? && Problem(env, lines, i).None?
  {
    var injected := TrimNewlines(env.read(env.marker(lines[i]).value).value);
    [lines[i], lines[i + 1], injected] + lines[CloseOf(lines, i)..EndOf(env, lines, i) + 1]
  }

  /** The rewriting of lines from i on. */
  function Inject(env: Env, lines: seq<string>, i: nat): Outcome
    requires i <= |lines|
    decreases |lines| - i
  {
    if i == |lines| then Done([])
    else if env.marker(lines[i]).None? then Prefixed([lines[i]], Inject(env, lines, i + 1))
    else if Problem(env, lines, i).Some? then Failed(Problem(env, lines, i).value)
    else Prefixed(Rewritten(env, lines, i), Inject(env, lines, EndOf(env, lines, i) + 1))
  }

  lemma PrefixedTwice(a: seq<string>, b: seq<string>, o: Outcome)
    ensures Prefixed(a, Prefixed(b, o)) == Prefixed(a + b, o)
  {
    if o.Done? {
      assert a + (b + o.lines) == (a + b) + o.lines;
    }
  }

  method InjectLines(env: Env, lines: seq<string>) returns (o: Outcome)
    ensures o == Inject(env, lines, 0)
  {
    var result: seq<string> := [];
    var i := 0;
    ghost var all := Inject(env, lines, 0);
    while i < |lines|
      invariant i <= |lines|
      invariant all == Prefixed(result, Inject(env, lines, i))
    {
      if env.marker(lines[i]).None? {
        PrefixedTwice(result, [lines[i]], Inject(env, lines, i + 1));
        result := result + [lines[i]];
        i := i + 1;
      } else {
        var block, next := InjectBlock(env, lines, i);
        if block.Failed? {
          return block;
        }
        PrefixedTwice(result, block.lines, Inject(env, lines, next));
        result := result + block.lines;
        i := next;
      }
    }
    assert result + [] == result;
    return Done(result);
  }

  /** Skips the old body. */
  method FindFence(lines: seq<string>, start: nat) returns (i: nat)
    requires start <= |lines|
    ensures i == SkipBody(lines, start)
  {
    i := start;
    while i < |lines| && lines[i] != FENCE
      invariant start <= i <= |lines|
      invariant SkipBody(lines, i) == SkipBody(lines, start)
    {
      i := i + 1;
    }
  }

  method CopyBlanks(env: Env, lines: seq<string>, start: nat) returns (blanks: seq<string>, i: nat)
    requires start <= |lines|
    ensures i == SkipBlank(env, lines, start) && blanks == lines[start..i]
  {
    i, blanks := start, [];
    while i < |lines| && env.blank(lines[i])
      invariant start <= i <= |lines|
      invariant SkipBlank(env, lines, i) == SkipBlank(env, lines, start)
      invariant blanks == lines[start..i]
    {
      blanks := blanks + [lines[i]];
      i := i + 1;
    }
  }

  lemma ClosingLines(lines: seq<string>, close: nat, end: nat)
    requires close < end < |lines|
    ensures lines[close..end + 1] == [lines[close]] + lines[close + 1..end] + [lines[end]]
  {}

  /** The part of the loop body that starts at a marker. */
  method InjectBlock(env: Env, lines: seq<string>, start: nat) returns (o: Outcome, i: nat)
    requires start < |lines| && env.marker(lines[start]).Some?
    ensures Problem(env, lines, start).Some? ==> o == Failed(Problem(env, lines, start).value)
    ensures Problem(env, lines, start).None? ==> o == Done(Rewritten(env, lines, start)) && i == EndOf(env, lines, start) + 1
  {
    hide SkipBody, SkipBlank, TrimNewlines;
    var result := [lines[start]];
    i := start + 1;
    if i >= |lines| {
      return Failed(Panic), i;
    }
    if !(FENCE <= lines[i]) {
      return Failed(NoOpeningFence), i;
    }
    result := result + [lines[i]];
    i := i + 1;
    i := FindFence(lines, i);
    if i >= |lines| {
      return Failed(NoClosingFence), i;
    }
    var content := env.read(env.marker(lines[start]).value);
    if content.None? {
      return Failed(Unreadable), i;
    }
    var injected := Trim(content.value);
    result := result + [injected] + [lines[i]];
    ghost var close := i;
    var blanks;
    blanks, i := CopyBlanks(env, lines, i + 1);
    result := result + blanks;
    if i >= |lines| || !env.isEnd(lines[i]) {
      return Failed(NoEndMarker), i;
    }
    ClosingLines(lines, close, i);
    result := result + [lines[i]];
    assert result == [lines[start], lines[start + 1], injected] + lines[close..i + 1];
    i := i + 1;
    return Done(result), i;
  }

  method Trim(text: string) returns (r: string)
    ensures r == TrimNewlines(text) && IsTrimmed(text, r)
  {
    TrimmedIs(text);
    var n: nat := |text|;
    assert text[..n] == text;
    while n > 0 && text[n - 1] == '\n'
      invariant n <= |text|
      invariant TrimNewlines(text[..n]) == TrimNewlines(text)
    {
      assert text[..n][..n - 1] == text[..n - 1];
      n := n - 1;
    }
    r := text[..n];
  }

  // ---- The structure of a document ----

  datatype Item =
    | Plain(line: string)
    | Block(marker: string, fence: string, body: seq<string>, blanks: seq<string>, end: string)

  function PrintItem(item: Item): seq<string> {
    match item
    case Plain(line) => [line]
    case Block(marker, fence, body, blanks, end) => [marker, fence] + body + [FENCE] + blanks + [end]
  }

  function Print(items: seq<Item>): seq<string> {
    if items == [] then [] else PrintItem(items[0]) + Print(items[1..])
  }

  predicate ItemOk(env: Env, item: Item) {
    match item
    case Plain(line) => env.marker(line).None?
    case Block(marker, fence, body, blanks, end) =>
      && env.marker(marker).Some? && FENCE <= fence && FENCE !in body
      && (forall b :: b in blanks ==> env.blank(b)) && !env.blank(end) && env.isEnd(end)
  }

  predicate ItemsOk(env: Env, items: seq<Item>) {
    forall item :: item in items ==> ItemOk(env, item)
  }

  /** What the tool makes of a document; only bodies change. */
  function NewItem(env: Env, item: Item): Item {
    match item
    case Plain(_) => item
    case Block(marker, _, _, _, _) =>
      var path := env.marker(marker);
      if path.None? || env.read(path.value).None? then item
      else item.(body := Split(TrimNewlines(env.read(path.value).value)))
  }

  function NewItems(env: Env, items: seq<Item>): seq<Item> {
    if items == [] then [] else [NewItem(env, items[0])] + NewItems(env, items[1..])
  }

  predicate Readable(env: Env, items: seq<Item>) {
    forall item :: item in items && item.Block? ==> env.marker(item.marker).Some? && env.read(env.marker(item.marker).value).Some?
  }

  function Cons(item: Item, o: Option<seq<Item>>): Option<seq<Item>> {
    if o.None? then None else Some([item] + o.value)
  }

  predicate IsBlock(env: Env, lines: seq<string>, i: nat) {
    && i + 1 < |lines| && FENCE <= lines[i + 1]
    && EndOf(env, lines, i) < |lines| && env.isEnd(lines[EndOf(env, lines, i)])
  }

  function BlockAt(env: Env, lines: seq<string>, i: nat): Item
    requires IsBlock(env, lines, i)
  {
    var close, end := CloseOf(lines, i), EndOf(env, lines, i);
    Block(lines[i], lines[i + 1], lines[i + 2..close], lines[close + 1..end], lines[end])
  }

  /** The items of the lines from i on, if every marker has its block. */
  function Parse(env: Env, lines: seq<string>, i: nat): Option<seq<Item>>
    requires i <= |lines|
    decreases |lines| - i
  {
    if i == |lines| then Some([])
    else if env.marker(lines[i]).None? then Cons(Plain(lines[i]), Parse(env, lines, i + 1))
    else if !IsBlock(env, lines, i) then None
    else Cons(BlockAt(env, lines, i), Parse(env, lines, EndOf(env, lines, i) + 1))
  }

  lemma BlockIsOk(env: Env, lines: seq<string>, i: nat)
    requires IsBlock(env, lines, i) && env.marker(lines[i]).Some?
    ensures ItemOk(env, BlockAt(env, lines, i))
  {
    hide CloseOf, EndOf;
  }

  lemma BlockPrint(env: Env, lines: seq<string>, i: nat)
    requires IsBlock(env, lines, i)
    ensures var close, end := CloseOf(lines, i), EndOf(env, lines, i);
            && i + 2 <= close < end < |lines| && lines[close] == FENCE
            && PrintItem(BlockAt(env, lines, i)) ==
               [lines[i], lines[i + 1]] + lines[i + 2..close] + [lines[close]] + lines[close + 1..end] + [lines[end]]
  {
    hide CloseOf, EndOf;
  }

  lemma BlockShape(env: Env, lines: seq<string>, i: nat)
    requires IsBlock(env, lines, i)
    ensures i < EndOf(env, lines, i) < |lines|
    ensures lines[i..] == PrintItem(BlockAt(env, lines, i)) + lines[EndOf(env, lines, i) + 1..]
    ensures env.marker(lines[i]).Some? ==> ItemOk(env, BlockAt(env, lines, i))
  {
    BlockPrint(env, lines, i);
    hide CloseOf, EndOf, PrintItem, ItemOk;
    SplitAtFour(lines, i, CloseOf(lines, i), EndOf(env, lines, i));
    if env.marker(lines[i]).Some? {
      BlockIsOk(env, lines, i);
    }
  }

  lemma SplitAtFour(lines: seq<string>, i: nat, close: nat, end: nat)
    requires i + 2 <= close < end < |lines|
    ensures lines[i..] == [lines[i], lines[i + 1]] + lines[i + 2..close] + [lines[close]] + lines[close + 1..end] + [lines[end]] + lines[end + 1..]
  {
    var whole := [lines[i], lines[i + 1]] + lines[i + 2..close] + [lines[close]] + lines[close + 1..end] + [lines[end]] + lines[end + 1..];
    assert |whole| == |lines[i..]|;
    assert forall k :: 0 <= k < |whole| ==> whole[k] == lines[i + k];
  }

  /** Printing what was parsed gives the lines back. */
  lemma {:induction false} PrintParse(env: Env, lines: seq<string>, i: nat)
    requires i <= |lines| && Parse(env, lines, i).Some?
    ensures var items := Parse(env, lines, i).value; Print(items) == lines[i..] && ItemsOk(env, items)
    decreases |lines| - i
  {
    hide PrintItem, BlockAt, IsBlock, EndOf;
    if i == |lines| {
    } else if env.marker(lines[i]).None? {
      PrintParse(env, lines, i + 1);
      assert lines[i..] == [lines[i]] + lines[i + 1..];
      assert PrintItem(Plain(lines[i])) == [lines[i]] by { PlainPrint(lines[i]); }
    } else {
      BlockShape(env, lines, i);
      PrintParse(env, lines, EndOf(env, lines, i) + 1);
    }
  }

  lemma PlainPrint(line: string)
    ensures PrintItem(Plain(line)) == [line]
  {}

  lemma {:induction false} SkipBodyFinds(lines: seq<string>, i: nat, j: nat)
    requires i <= j < |lines| && FENCE !in lines[i..j] && lines[j] == FENCE
    ensures SkipBody(lines, i) == j
    decreases j - i
  {
    if i < j {
      assert lines[i..j] == [lines[i]] + lines[i + 1..j];
      SkipBodyFinds(lines, i + 1, j);
    }
  }

  lemma {:induction false} SkipBlankFinds(env: Env, lines: seq<string>, i: nat, j: nat)
    requires i <= j < |lines| && (forall l :: l in lines[i..j] ==> env.blank(l)) && !env.blank(lines[j])
    ensures SkipBlank(env, lines, i) == j
    decreases j - i
  {
    if i < j {
      assert lines[i..j] == [lines[i]] + lines[i + 1..j];
      SkipBlankFinds(env, lines, i + 1, j);
    }
  }

  /** The block item is printed in lines from n on. */
  ghost predicate Laid(lines: seq<string>, n: nat, item: Item)
    requires item.Block?
  {
    var close := n + 2 + |item.body|;
    var end := close + 1 + |item.blanks|;
    && end < |lines|
    && lines[n] == item.marker && lines[n + 1] == item.fence && lines[n + 2..close] == item.body
    && lines[close] == FENCE && lines[close + 1..end] == item.blanks && lines[end] == item.end
  }

  lemma ItemLaid(front: seq<string>, item: Item, rest: seq<string>)
    requires item.Block?
    ensures Laid(front + PrintItem(item) + rest, |front|, item) && |PrintItem(item)| == 4 + |item.body| + |item.blanks|
  {
    var lines := front + PrintItem(item) + rest;
    var close := |front| + 2 + |item.body|;
    var printed := PrintItem(item);
    assert printed[2..2 + |item.body|] == item.body;
    assert printed[3 + |item.body|..3 + |item.body| + |item.blanks|] == item.blanks;
    assert forall k :: 0 <= k < |printed| ==> lines[|front| + k] == printed[k];
    assert lines[|front| + 2..close] == item.body;
    assert lines[close + 1..close + 1 + |item.blanks|] == item.blanks;
  }

  lemma EndsFound(env: Env, lines: seq<string>, n: nat, close: nat, end: nat)
    requires n + 2 <= close < end < |lines| && lines[close] == FENCE && FENCE !in lines[n + 2..close]
    requires !env.blank(lines[end]) && forall l :: l in lines[close + 1..end] ==> env.blank(l)
    ensures CloseOf(lines, n) == close && EndOf(env, lines, n) == end
  {
    SkipBodyFinds(lines, n + 2, close);
    SkipBlankFinds(env, lines, close + 1, end);
    hide SkipBody, SkipBlank;
  }

  lemma BlockFound(env: Env, lines: seq<string>, n: nat, item: Item)
    requires item.Block? && ItemOk(env, item) && Laid(lines, n, item)
    ensures IsBlock(env, lines, n) && BlockAt(env, lines, n) == item && EndOf(env, lines, n) == n + 3 + |item.body| + |item.blanks|
  {
    var close := n + 2 + |item.body|;
    var end := close + 1 + |item.blanks|;
    hide CloseOf, EndOf;
    EndsFound(env, lines, n, close, end);
  }

  lemma ParsePlain(env: Env, lines: seq<string>, i: nat)
    requires i < |lines| && env.marker(lines[i]).None?
    ensures Parse(env, lines, i) == Cons(Plain(lines[i]), Parse(env, lines, i + 1))
  {
    hide IsBlock, BlockAt, EndOf;
  }

  lemma ParseBlock(env: Env, lines: seq<string>, i: nat)
    requires i < |lines| && env.marker(lines[i]).Some? && IsBlock(env, lines, i)
    ensures EndOf(env, lines, i) < |lines|
    ensures Parse(env, lines, i) == Cons(BlockAt(env, lines, i), Parse(env, lines, EndOf(env, lines, i) + 1))
  {}

  lemma ParsePlainItem(env: Env, front: seq<string>, line: string, rest: seq<string>)
    requires env.marker(line).None?
    ensures Parse(env, front + [line] + rest, |front|) == Cons(Plain(line), Parse(env, front + [line] + rest, |front + [line]|))
  {
    hide *;
    var lines := front + [line] + rest;
    assert lines[|front|] == line;
    ParsePlain(env, lines, |front|);
  }

  lemma ParseBlockItem(env: Env, lines: seq<string>, n: nat, item: Item)
    requires item.Block? && ItemOk(env, item) && Laid(lines, n, item)
    ensures Parse(env, lines, n) == Cons(item, Parse(env, lines, n + 4 + |item.body| + |item.blanks|))
  {
    BlockFound(env, lines, n, item);
    BlockMarked(env, item);
    hide IsBlock, BlockAt, EndOf, ItemOk, Parse;
    ParseBlock(env, lines, n);
  }

  lemma ParseItem(env: Env, front: seq<string>, item: Item, rest: seq<string>)
    requires ItemOk(env, item)
    ensures var lines := front + PrintItem(item) + rest;
            Parse(env, lines, |front|) == Cons(item, Parse(env, lines, |front + PrintItem(item)|))
  {
    hide Parse;
    if item.Block? {
      ItemLaid(front, item, rest);
      hide Laid, ItemOk;
      ParseBlockItem(env, front + PrintItem(item) + rest, |front|, item);
    } else {
      ParsePlainItem(env, front, item.line, rest);
    }
  }

  lemma BlockMarked(env: Env, item: Item)
    requires item.Block? && ItemOk(env, item)
    ensures env.marker(item.marker).Some?
  {}

  /** Parsing what was printed gives the items back: a document has one structure. */
  lemma {:induction false} ParsePrint(env: Env, front: seq<string>, items: seq<Item>)
    requires ItemsOk(env, items)
    ensures Parse(env, front + Print(items), |front|) == Some(items)
    decreases |items|
  {
    assert Parse(env, front + [], |front|) == Some([]);
    hide Parse, ItemOk, PrintItem;
    if items != [] {
      var item, rest := items[0], items[1..];
      assert item in items && items == [item] + rest;
      PrintSplits(front, items);
      ParseItem(env, front, item, Print(rest));
      hide Print;
      ParsePrint(env, front + PrintItem(item), rest);
    }
  }

  lemma PrintSplits(front: seq<string>, items: seq<Item>)
    requires items != []
    ensures front + Print(items) == front + PrintItem(items[0]) + Print(items[1..])
  {
    hide PrintItem;
  }

  lemma NoProblem(env: Env, lines: seq<string>, i: nat)
    requires i < |lines| && env.marker(lines[i]).Some?
    ensures Problem(env, lines, i).None? <==> IsBlock(env, lines, i) && env.read(env.marker(lines[i]).value).Some?
  {}

  /** The scan succeeds exactly if the document parses and its files can be read, and then it prints the document with the new bodies. */
  lemma {:induction false} InjectIsReplacement(env: Env, lines: seq<string>, i: nat)
    requires i <= |lines| && SingleLines(lines)
    ensures var o, items := Inject(env, lines, i), Parse(env, lines, i);
            && (o.Done? <==> items.Some? && Readable(env, items.value))
            && (o.Done? ==> Lines(o.lines) == Print(NewItems(env, items.value)))
            && (o.Done? && i < |lines| ==> o.lines != [])
    decreases |lines| - i
  {
    hide Problem, IsBlock, BlockAt, EndOf, Rewritten, SingleLines, NewItem, Lines, PrintItem;
    if i == |lines| {
      assert Lines([]) == [] by { NoLines(); }
    } else if env.marker(lines[i]).None? {
      InjectIsReplacement(env, lines, i + 1);
      PlainPrint(lines[i]);
      PlainStays(env, lines, i);
      if Inject(env, lines, i).Done? {
        LinesConcat([lines[i]], Inject(env, lines, i + 1).lines);
      }
    } else {
      NoProblem(env, lines, i);
      if IsBlock(env, lines, i) {
        var end := EndOf(env, lines, i);
        BlockMarker(env, lines, i);
        InjectIsReplacement(env, lines, end + 1);
        if Inject(env, lines, i).Done? {
          LinesConcat(Rewritten(env, lines, i), Inject(env, lines, end + 1).lines);
          RewrittenLines(env, lines, i);
        }
      }
    }
  }

  lemma NoLines()
    ensures Lines([]) == []
  {}

  lemma BlockMarker(env: Env, lines: seq<string>, i: nat)
    requires IsBlock(env, lines, i)
    ensures i < EndOf(env, lines, i) < |lines| && BlockAt(env, lines, i).Block? && BlockAt(env, lines, i).marker == lines[i]
  {}

  lemma PlainStays(env: Env, lines: seq<string>, i: nat)
    requires i < |lines| && SingleLines(lines)
    ensures NewItem(env, Plain(lines[i])) == Plain(lines[i]) && Lines([lines[i]]) == [lines[i]]
  {
    LinesOfSingle([lines[i]]);
  }

  lemma LinesOfBlock(marker: string, fence: string, body: string, tail: seq<string>)
    requires '\n' !in marker && '\n' !in fence && SingleLines(tail)
    ensures Lines([marker, fence, body] + tail) == [marker, fence] + Split(body) + tail
  {
    assert Lines([body]) == Split(body) by {
      assert Lines([body][1..]) == [];
    }
    var head := [marker, fence];
    assert [marker, fence, body] + tail == head + [body] + tail;
    LinesConcat(head + [body], tail);
    LinesConcat(head, [body]);
    LinesOfSingle(head);
    LinesOfSingle(tail);
    hide Lines, Split;
  }

  lemma RewrittenParts(env: Env, lines: seq<string>, i: nat)
    requires i < |lines| && env.marker(lines[i]).Some? && Problem(env, lines, i).None? && IsBlock(env, lines, i)
    ensures var close, end := CloseOf(lines, i), EndOf(env, lines, i);
            && close <= end < |lines| && env.read(env.marker(lines[i]).value).Some?
            && var body := TrimNewlines(env.read(env.marker(lines[i]).value).value);
            && Rewritten(env, lines, i) == [lines[i], lines[i + 1], body] + lines[close..end + 1]
            && PrintItem(NewItem(env, BlockAt(env, lines, i))) == [lines[i], lines[i + 1]] + Split(body) + lines[close..end + 1]
  {
    var body := TrimNewlines(env.read(env.marker(lines[i]).value).value);
    RewrittenIs(env, lines, i);
    NewBlockPrint(env, lines, i, Split(body));
    hide TrimNewlines, Split, PrintItem, Rewritten, CloseOf, EndOf, IsBlock, Problem;
  }

  lemma RewrittenIs(env: Env, lines: seq<string>, i: nat)
    requires i < |lines| && env.marker(lines[i]).Some? && Problem(env, lines, i).None?
    ensures var close, end := CloseOf(lines, i), EndOf(env, lines, i);
            && close <= end < |lines| && env.read(env.marker(lines[i]).value).Some?
            && Rewritten(env, lines, i) ==
               [lines[i], lines[i + 1], TrimNewlines(env.read(env.marker(lines[i]).value).value)] + lines[close..end + 1]
  {
    hide TrimNewlines, CloseOf, EndOf;
  }

  lemma NewBlockPrint(env: Env, lines: seq<string>, i: nat, body: seq<string>)
    requires IsBlock(env, lines, i)
    ensures var close, end := CloseOf(lines, i), EndOf(env, lines, i);
            close <= end < |lines| && PrintItem(BlockAt(env, lines, i).(body := body)) == [lines[i], lines[i + 1]] + body + lines[close..end + 1]
  {
    var close, end := CloseOf(lines, i), EndOf(env, lines, i);
    hide CloseOf, EndOf;
    ClosingLines(lines, close, end);
  }

  lemma RewrittenLines(env: Env, lines: seq<string>, i: nat)
    requires i < |lines| && SingleLines(lines) && env.marker(lines[i]).Some? && Problem(env, lines, i).None? && IsBlock(env, lines, i)
    ensures Lines(Rewritten(env, lines, i)) == PrintItem(NewItem(env, BlockAt(env, lines, i)))
    ensures Rewritten(env, lines, i) != []
  {
    RewrittenParts(env, lines, i);
    hide TrimNewlines, CloseOf, EndOf, Problem, Lines, Split, PrintItem, NewItem, BlockAt, Rewritten;
    var tail := lines[CloseOf(lines, i)..EndOf(env, lines, i) + 1];
    LinesOfBlock(lines[i], lines[i + 1], TrimNewlines(env.read(env.marker(lines[i]).value).value), tail);
  }

  // ---- The new body of a block ----

  lemma {:induction false} SplitLast(text: string)
    ensures Split(text)[|Split(text)| - 1] == "" <==> text == "" || text[|text| - 1] == '\n'
  {
    if text != "" {
      SplitLast(text[1..]);
      var rest := Split(text[1..]);
      if text[0] != '\n' && |rest| == 1 {
        assert text[1..] != "" ==> text[1..][|text| - 2] == text[|text| - 1];
      }
    }
  }

  /** Newlines at the end are empty lines at the end. */
  lemma {:induction false} SplitNewlines(text: string, r: string)
    requires r <= text && forall k :: |r| <= k < |text| ==> text[k] == '\n'
    ensures var lines, front := Split(text), Split(r);
            front <= lines && |lines| - |front| == |text| - |r| && forall k :: |front| <= k < |lines| ==> lines[k] == ""
    decreases |text|
  {
    if |text| == |r| {
      assert text == r;
    } else {
      var shorter := text[..|text| - 1];
      assert text == shorter + "\n" + "";
      SplitNewlines(shorter, r);
      SplitAtNewline(shorter, "");
    }
  }

  /** The new body of a block: the lines of the file up to its last line that is not empty, or one empty line if all are. */
  lemma NewBodyIs(env: Env, item: Item, file: string)
    requires item.Block? && env.marker(item.marker).Some? && env.read(env.marker(item.marker).value) == Some(file)
    ensures var body, lines := NewItem(env, item).body, Split(file);
            && NewItem(env, item) == item.(body := body)
            && body != [] && body <= lines && (body == [""] || body[|body| - 1] != "")
            && forall k :: |body| <= k < |lines| ==> lines[k] == ""
  {
    var r := TrimNewlines(file);
    TrimmedIs(file);
    SplitNewlines(file, r);
    SplitLast(r);
    hide Split, TrimNewlines;
    if r == "" {
      assert Split("") == [""] by {
        SplitSingle("");
      }
    }
  }

  /** Behind the first closing fence from start on the first line that is not blank, if there is one, is no end marker. */
  ghost predicate LacksEnd(env: Env, lines: seq<string>, start: nat, close: nat, end: nat) {
    && start <= close < end <= |lines| && lines[close] == "```" && "```" !in lines[start..close]
    && (forall k :: close < k < end ==> env.blank(lines[k]))
    && (end < |lines| ==> !env.blank(lines[end]) && !env.isEnd(lines[end]))
  }

  ghost predicate EndMissing(env: Env, lines: seq<string>, start: nat) {
    exists close: nat, end: nat :: LacksEnd(env, lines, start, close, end)
  }

  /** What is wrong with the block at a marker, in the order in which it is noticed. */
  ghost predicate IsProblem(env: Env, lines: seq<string>, i: nat, e: Error)
    requires i < |lines| && env.marker(lines[i]).Some?
  {
    match e
    case Panic => i + 1 == |lines|
    case NoOpeningFence => i + 1 < |lines| && !("```" <= lines[i + 1])
    case NoClosingFence => i + 1 < |lines| && "```" <= lines[i + 1] && "```" !in lines[i + 2..]
    case Unreadable => i + 1 < |lines| && "```" <= lines[i + 1] && "```" in lines[i + 2..] && env.read(env.marker(lines[i]).value).None?
    case NoEndMarker =>
      && i + 1 < |lines| && "```" <= lines[i + 1] && env.read(env.marker(lines[i]).value).Some?
      && EndMissing(env, lines, i + 2)
  }

  lemma {:induction false} NoFence(lines: seq<string>, i: nat)
    requires i <= |lines|
    ensures SkipBody(lines, i) == |lines| <==> FENCE !in lines[i..]
    decreases |lines| - i
  {
    if i < |lines| && lines[i] != FENCE {
      NoFence(lines, i + 1);
      assert lines[i..] == [lines[i]] + lines[i + 1..];
    }
  }

  lemma {:induction false} AllBlank(env: Env, lines: seq<string>, i: nat)
    requires i <= |lines| && forall k :: i <= k < |lines| ==> env.blank(lines[k])
    ensures SkipBlank(env, lines, i) == |lines|
    decreases |lines| - i
  {
    if i < |lines| {
      AllBlank(env, lines, i + 1);
    }
  }

  lemma LacksEndExactly(env: Env, lines: seq<string>, i: nat)
    requires i + 1 < |lines|
    ensures EndMissing(env, lines, i + 2) <==>
              CloseOf(lines, i) < |lines| && (EndOf(env, lines, i) == |lines| || !env.isEnd(lines[EndOf(env, lines, i)]))
  {
    if EndMissing(env, lines, i + 2) {
      var close: nat, end: nat :| LacksEnd(env, lines, i + 2, close, end);
      SkipBodyFinds(lines, i + 2, close);
      if end < |lines| {
        SkipBlankFinds(env, lines, close + 1, end);
      } else {
        AllBlank(env, lines, close + 1);
      }
      hide SkipBody, SkipBlank;
    }
    if CloseOf(lines, i) < |lines| && (EndOf(env, lines, i) == |lines| || !env.isEnd(lines[EndOf(env, lines, i)])) {
      hide SkipBody, SkipBlank;
      BlankLines(env, lines, CloseOf(lines, i) + 1, EndOf(env, lines, i));
      assert LacksEnd(env, lines, i + 2, CloseOf(lines, i), EndOf(env, lines, i));
    }
  }

  /** The run reports the first thing that is wrong with a block, and goes past it if nothing is. */
  lemma ProblemIs(env: Env, lines: seq<string>, i: nat, e: Error)
    requires i < |lines| && env.marker(lines[i]).Some?
    ensures Problem(env, lines, i) == Some(e) ==> IsProblem(env, lines, i, e) && Inject(env, lines, i) == Failed(e)
    ensures Problem(env, lines, i).None? ==> !IsProblem(env, lines, i, e)
  {
    hide SkipBody, EndMissing, EndOf, Rewritten, SkipBlank;
    if i + 1 < |lines| {
      NoFence(lines, i + 2);
      LacksEndExactly(env, lines, i);
    }
    assert Problem(env, lines, i) == Some(e) ==> Inject(env, lines, i) == Failed(e);
    hide Inject;
  }

  // ---- Running the tool again ----

  /** The file rewritten as a text; the tool reports a change if it differs. */
  function Process(env: Env, text: string): Outcome {
    match Inject(env, Split(text), 0)
    case Done(lines) => Done([Join(lines)])
    case Failed(e) => Failed(e)
  }

  /** The file is written unless nothing changed or only a check was asked for. */
  method ProcessFile(env: Env, text: string, checkOnly: bool) returns (changed: bool, written: Option<string>, error: Option<Error>)
    ensures error.Some? ==> Process(env, text) == Failed(error.value) && !changed && written.None?
    ensures error.None? ==> exists updated :: Process(env, text) == Done([updated]) && (changed <==> updated != text)
                                           && written == if changed && !checkOnly then Some(updated) else None
  {
    var result := InjectLines(env, Split(text));
    if result.Failed? {
      return false, None, Some(result.error);
    }
    var updated := Join(result.lines);
    assert Process(env, text) == Done([updated]);
    if updated == text {
      return false, None, None;
    }
    return true, if checkOnly then None else Some(updated), None;
  }

  /** No injected file has a line that is exactly a closing fence. */
  ghost predicate Fenceless(env: Env, items: seq<Item>) {
    forall item :: item in items && item.Block? ==> NewItem(env, item).Block? && FENCE !in NewItem(env, item).body
  }

  lemma {:induction false} NewItemsStable(env: Env, items: seq<Item>)
    requires ItemsOk(env, items) && Readable(env, items) && Fenceless(env, items)
    ensures ItemsOk(env, NewItems(env, items)) && Readable(env, NewItems(env, items))
    ensures NewItems(env, NewItems(env, items)) == NewItems(env, items)
  {
    hide ItemOk, NewItem;
    if items != [] {
      var item, rest := items[0], items[1..];
      assert item in items && forall x :: x in rest ==> x in items;
      NewItemsStable(env, rest);
      NewItemStable(env, item);
      var new' := NewItems(env, items);
      assert new'[0] == NewItem(env, item) && new'[1..] == NewItems(env, rest);
    }
  }

  lemma NewItemStable(env: Env, item: Item)
    requires ItemOk(env, item) && (item.Block? ==> FENCE !in NewItem(env, item).body && env.read(env.marker(item.marker).value).Some?)
    ensures var i := NewItem(env, item);
            && ItemOk(env, i) && NewItem(env, i) == i && (i.Block? <==> item.Block?) && (i.Block? ==> i.marker == item.marker)
  {
    hide Split, TrimNewlines;
  }

  /** The lines outside of the fenced bodies. */
  function Outside(items: seq<Item>): seq<string> {
    if items == [] then []
    else
      (match items[0]
       case Plain(line) => [line]
       case Block(marker, fence, _, blanks, end) => [marker, fence, FENCE] + blanks + [end]) + Outside(items[1..])
  }

  lemma {:induction false} OutsideStays(env: Env, items: seq<Item>)
    ensures Outside(NewItems(env, items)) == Outside(items)
  {
    if items != [] {
      OutsideStays(env, items[1..]);
      assert NewItems(env, items)[1..] == NewItems(env, items[1..]);
    }
  }

  lemma ProcessGives(env: Env, text: string)
    requires Process(env, text).Done?
    ensures var items := Parse(env, Split(text), 0);
            && items.Some? && ItemsOk(env, items.value) && Readable(env, items.value)
            && Split(Process(env, text).lines[0]) == Print(NewItems(env, items.value))
  {
    SplitGivesSingleLines(text);
    InjectIsReplacement(env, Split(text), 0);
    SplitJoin(Inject(env, Split(text), 0).lines);
    PrintParse(env, Split(text), 0);
    hide *;
  }

  /** The tool is idempotent if no injected file has a line that is exactly a closing fence: a second run succeeds and changes nothing. */
  lemma SecondRunChangesNothing(env: Env, text: string)
    requires Process(env, text).Done? && Parse(env, Split(text), 0).Some? && Fenceless(env, Parse(env, Split(text), 0).value)
    ensures Process(env, Process(env, text).lines[0]) == Process(env, text)
  {
    var updated := Process(env, text).lines[0];
    var new' := NewItems(env, Parse(env, Split(text), 0).value);
    ProcessGives(env, text);
    NewItemsStable(env, Parse(env, Split(text), 0).value);
    ParsePrint(env, [], new');
    assert [] + Print(new') == Print(new');
    assert Parse(env, Split(updated), 0) == Some(new');
    SplitGivesSingleLines(updated);
    InjectIsReplacement(env, Split(updated), 0);
    var again := Inject(env, Split(updated), 0).lines;
    SplitJoin(again);
    assert Split(Join(again)) == Split(updated);
    JoinSplit(Join(again));
    JoinSplit(updated);
  }

  // ---- Exactly when a second run changes nothing ----

  /** A marker is no end marker and not blank, and a closing fence is none of the three. */
  ghost predicate EnvOk(env: Env) {
    && !env.blank(FENCE) && !env.isEnd(FENCE) && env.marker(FENCE).None?
    && forall l :: env.marker(l).Some? ==> !env.isEnd(l) && !env.blank(l)
  }

  /** What a run leaves of an item: the body is that of the file, maybe with markers and closing fences in it. */
  ghost predicate Injected(env: Env, item: Item) {
    match item
    case Plain(line) => env.marker(line).None?
    case Block(marker, fence, body, blanks, end) =>
      && env.marker(marker).Some? && FENCE <= fence && env.read(env.marker(marker).value).Some?
      && body == Split(TrimNewlines(env.read(env.marker(marker).value).value))
      && (forall b :: b in blanks ==> env.blank(b)) && !env.blank(end) && env.isEnd(end)
  }

  ghost predicate NoMarker(env: Env, item: Item) {
    item.Block? ==> forall l :: l in item.body ==> env.marker(l).None?
  }

  predicate HasFence(item: Item) {
    item.Block? && FENCE in item.body
  }

  lemma {:induction false} PlainLines(env: Env, lines: seq<string>, i: nat, j: nat)
    requires i <= j <= |lines| && forall l :: l in lines[i..j] ==> env.marker(l).None?
    ensures Inject(env, lines, i) == Prefixed(lines[i..j], Inject(env, lines, j))
    decreases j - i
  {
    if i == j {
      PrefixedTwice([], [], Inject(env, lines, j));
    } else {
      assert lines[i..j] == [lines[i]] + lines[i + 1..j];
      PlainLines(env, lines, i + 1, j);
      PrefixedTwice([lines[i]], lines[i + 1..j], Inject(env, lines, j));
    }
  }

  lemma BlockLength(env: Env, lines: seq<string>, i: nat)
    requires i < |lines| && SingleLines(lines) && env.marker(lines[i]).Some? && Problem(env, lines, i).None? && IsBlock(env, lines, i)
    ensures var body := TrimNewlines(env.read(env.marker(lines[i]).value).value);
            |Lines(Rewritten(env, lines, i))| == 2 + |Split(body)| + (EndOf(env, lines, i) + 1 - CloseOf(lines, i))
  {
    RewrittenLines(env, lines, i);
    RewrittenParts(env, lines, i);
    hide *;
  }

  lemma BlankLines(env: Env, lines: seq<string>, i: nat, j: nat)
    requires i <= j <= |lines| && forall l :: l in lines[i..j] ==> env.blank(l)
    ensures forall k :: i <= k < j ==> env.blank(lines[k])
  {
    forall k | i <= k < j ensures env.blank(lines[k]) {
      assert lines[i..j][k - i] == lines[k];
    }
  }

  lemma {:induction false} FirstFence(lines: seq<string>, i: nat, j: nat)
    requires i <= j <= |lines| && FENCE in lines[i..j]
    ensures SkipBody(lines, i) < j
    decreases j - i
  {
    if lines[i] != FENCE {
      assert lines[i..j] == [lines[i]] + lines[i + 1..j];
      FirstFence(lines, i + 1, j);
    }
  }

  /** The first fence inside a body closes the block, and then an end marker has to follow within the body. */
  lemma FenceCloses(env: Env, lines: seq<string>, n: nat, item: Item)
    requires EnvOk(env) && item.Block? && HasFence(item) && Laid(lines, n, item) && IsBlock(env, lines, n)
    ensures n + 2 <= CloseOf(lines, n) < EndOf(env, lines, n) < n + 2 + |item.body|
  {
    FirstFence(lines, n + 2, n + 2 + |item.body|);
    hide SkipBody, SkipBlank;
    BlankLines(env, lines, CloseOf(lines, n) + 1, EndOf(env, lines, n));
  }

  /** No marker stands between the first line of a body and the end of its block. */
  lemma NoMarkersAfter(env: Env, lines: seq<string>, n: nat, item: Item, at: nat)
    requires EnvOk(env) && Injected(env, item) && NoMarker(env, item) && item.Block? && Laid(lines, n, item)
    requires n + 2 <= at <= n + 4 + |item.body| + |item.blanks|
    ensures forall l :: l in lines[at..n + 4 + |item.body| + |item.blanks|] ==> env.marker(l).None?
  {
    hide Split, TrimNewlines;
    var close := n + 2 + |item.body|;
    var end := close + 1 + |item.blanks|;
    forall k | at <= k <= end ensures env.marker(lines[k]).None? {
      if k < close {
        assert lines[n + 2..close][k - n - 2] == lines[k];
      } else if close < k < end {
        assert lines[close + 1..end][k - close - 1] == lines[k];
      }
    }
  }

  lemma BlockRuns(env: Env, lines: seq<string>, i: nat)
    requires i < |lines| && env.marker(lines[i]).Some? && Inject(env, lines, i).Done?
    ensures Problem(env, lines, i).None? && IsBlock(env, lines, i) && EndOf(env, lines, i) < |lines|
    ensures Inject(env, lines, i) == Prefixed(Rewritten(env, lines, i), Inject(env, lines, EndOf(env, lines, i) + 1))
  {
    NoProblem(env, lines, i);
    hide Rewritten;
  }

  /** A block with a fence in its body gets longer: its rewriting, the rest of the old body, and what follows. */
  lemma FencedBlockGrows(env: Env, lines: seq<string>, n: nat, item: Item)
    requires EnvOk(env) && Injected(env, item) && NoMarker(env, item) && HasFence(item) && Laid(lines, n, item)
    requires SingleLines(lines) && Inject(env, lines, n).Done?
    ensures var next := n + 4 + |item.body| + |item.blanks|;
            && Inject(env, lines, next).Done?
            && |Lines(Inject(env, lines, n).lines)| > next - n + |Lines(Inject(env, lines, next).lines)|
  {
    var next := n + 4 + |item.body| + |item.blanks|;
    BlockRuns(env, lines, n);
    FenceCloses(env, lines, n, item);
    var end := EndOf(env, lines, n);
    NoMarkersAfter(env, lines, n, item, end + 1);
    PlainLines(env, lines, end + 1, next);
    BlockLength(env, lines, n);
    InjectedBody(env, item);
    hide Inject, EndOf, CloseOf, Rewritten, Lines, Split, TrimNewlines, Problem, IsBlock, SingleLines, Injected, NoMarker, EnvOk;
    var more := Inject(env, lines, next).lines;
    LinesConcat(Rewritten(env, lines, n), lines[end + 1..next] + more);
    LinesConcat(lines[end + 1..next], more);
    PartIsSingle(lines, end + 1, next);
    LinesOfSingle(lines[end + 1..next]);
  }

  lemma InjectedBody(env: Env, item: Item)
    requires Injected(env, item) && item.Block?
    ensures env.marker(item.marker).Some? && env.read(env.marker(item.marker).value).Some?
    ensures item.body == Split(TrimNewlines(env.read(env.marker(item.marker).value).value))
  {}

  lemma PartIsSingle(lines: seq<string>, i: nat, j: nat)
    requires SingleLines(lines) && i <= j <= |lines|
    ensures SingleLines(lines[i..j])
  {}

  /** A block without one is printed as it is. */
  lemma OtherBlockStays(env: Env, lines: seq<string>, n: nat, item: Item)
    requires Injected(env, item) && item.Block? && !HasFence(item) && Laid(lines, n, item)
    requires SingleLines(lines) && Inject(env, lines, n).Done?
    ensures var next := n + 4 + |item.body| + |item.blanks|;
            && Inject(env, lines, next).Done?
            && |Lines(Inject(env, lines, n).lines)| == next - n + |Lines(Inject(env, lines, next).lines)|
  {
    var next := n + 4 + |item.body| + |item.blanks|;
    InjectedIsOk(env, item);
    BlockFound(env, lines, n, item);
    BlockRuns(env, lines, n);
    BlockLength(env, lines, n);
    InjectedBody(env, item);
    ClosedWhere(lines, n, item);
    hide Inject, EndOf, CloseOf, Rewritten, Lines, Split, TrimNewlines, Problem, IsBlock, SingleLines, Injected, ItemOk, HasFence, BlockAt;
    LinesConcat(Rewritten(env, lines, n), Inject(env, lines, next).lines);
  }

  lemma InjectedIsOk(env: Env, item: Item)
    requires Injected(env, item) && !HasFence(item)
    ensures ItemOk(env, item)
  {
    hide Split, TrimNewlines;
  }

  lemma ClosedWhere(lines: seq<string>, n: nat, item: Item)
    requires item.Block? && !HasFence(item) && Laid(lines, n, item)
    ensures CloseOf(lines, n) == n + 2 + |item.body|
  {
    SkipBodyFinds(lines, n + 2, n + 2 + |item.body|);
    hide SkipBody;
  }

  /** A plain line is printed as it is. */
  lemma OtherLineStays(env: Env, lines: seq<string>, n: nat)
    requires n < |lines| && env.marker(lines[n]).None? && SingleLines(lines) && Inject(env, lines, n).Done?
    ensures Inject(env, lines, n + 1).Done?
    ensures |Lines(Inject(env, lines, n).lines)| == 1 + |Lines(Inject(env, lines, n + 1).lines)|
  {
    PlainStays(env, lines, n);
    hide Lines, SingleLines, NewItem;
    LinesConcat([lines[n]], Inject(env, lines, n + 1).lines);
  }

  /** What the run makes of one item, and the rest of the run. */
  ghost predicate Grown(env: Env, lines: seq<string>, n: nat, next: nat, fenced: bool) {
    && n <= next <= |lines|
    && Inject(env, lines, n).Done? && Inject(env, lines, next).Done?
    && var a, b := |Lines(Inject(env, lines, n).lines)|, |Lines(Inject(env, lines, next).lines)|;
       a >= next - n + b && (fenced ==> a > next - n + b)
  }

  lemma BlockGrown(env: Env, lines: seq<string>, n: nat, item: Item)
    requires EnvOk(env) && Injected(env, item) && NoMarker(env, item) && item.Block? && Laid(lines, n, item)
    requires SingleLines(lines) && Inject(env, lines, n).Done?
    ensures Grown(env, lines, n, n + 4 + |item.body| + |item.blanks|, HasFence(item))
  {
    hide Inject, Lines, Injected, NoMarker, EnvOk, SingleLines;
    if HasFence(item) {
      FencedBlockGrows(env, lines, n, item);
    } else {
      OtherBlockStays(env, lines, n, item);
    }
  }

  lemma PlainGrown(env: Env, lines: seq<string>, n: nat)
    requires n < |lines| && env.marker(lines[n]).None? && SingleLines(lines) && Inject(env, lines, n).Done?
    ensures Grown(env, lines, n, n + 1, false)
  {
    hide Inject, Lines, SingleLines;
    OtherLineStays(env, lines, n);
  }

  /** Where a block is printed from n on, and where what follows begins. */
  lemma LaidAt(lines: seq<string>, n: nat, item: Item, rest: seq<string>)
    requires n <= |lines| && item.Block? && lines[n..] == PrintItem(item) + rest
    ensures Laid(lines, n, item) && |PrintItem(item)| == 4 + |item.body| + |item.blanks|
  {
    assert lines == lines[..n] + PrintItem(item) + rest;
    ItemLaid(lines[..n], item, rest);
    hide PrintItem, Laid;
  }

  lemma RestFollows(lines: seq<string>, n: nat, printed: seq<string>, rest: seq<string>)
    requires n <= |lines| && lines[n..] == printed + rest
    ensures n + |printed| <= |lines| && lines[n + |printed|..] == rest
  {
    assert |lines[n..]| == |lines| - n;
    assert forall k :: 0 <= k < |rest| ==> rest[k] == lines[n..][|printed| + k];
  }

  lemma PlainAt(lines: seq<string>, n: nat, line: string, rest: seq<string>)
    requires n <= |lines| && lines[n..] == PrintItem(Plain(line)) + rest
    ensures n < |lines| && lines[n] == line && |PrintItem(Plain(line))| == 1
  {
    assert lines[n..][0] == line;
  }

  lemma ItemGrown(env: Env, lines: seq<string>, n: nat, item: Item, rest: seq<string>)
    requires EnvOk(env) && Injected(env, item) && NoMarker(env, item) && n <= |lines| && lines[n..] == PrintItem(item) + rest
    requires SingleLines(lines) && Inject(env, lines, n).Done?
    ensures Grown(env, lines, n, n + |PrintItem(item)|, HasFence(item))
  {
    hide EnvOk, SingleLines, Inject, PrintItem, Laid, Grown;
    if item.Block? {
      LaidAt(lines, n, item, rest);
      hide Injected, HasFence, NoMarker;
      BlockGrown(env, lines, n, item);
    } else {
      PlainAt(lines, n, item.line, rest);
      PlainGrown(env, lines, n);
    }
  }

  /** A run over what a run left never shortens it, and lengthens it if a body holds a fence. */
  lemma {:induction false} RunGrows(env: Env, lines: seq<string>, n: nat, items: seq<Item>)
    requires EnvOk(env) && (forall item :: item in items ==> Injected(env, item) && NoMarker(env, item))
    requires n <= |lines| && lines[n..] == Print(items) && SingleLines(lines) && Inject(env, lines, n).Done?
    ensures var k := |Lines(Inject(env, lines, n).lines)|;
            k >= |Print(items)| && ((exists item :: item in items && HasFence(item)) ==> k > |Print(items)|)
    decreases |items|
  {
    hide Injected, NoMarker, PrintItem, Lines, EnvOk, Inject, HasFence, SingleLines;
    if items != [] {
      var item, rest := items[0], items[1..];
      assert items == [item] + rest && item in items;
      ItemGrown(env, lines, n, item, Print(rest));
      RestFollows(lines, n, PrintItem(item), Print(rest));
      RunGrows(env, lines, n + |PrintItem(item)|, rest);
    }
  }

  lemma {:induction false} RunLeaves(env: Env, items: seq<Item>)
    requires ItemsOk(env, items) && Readable(env, items)
    ensures forall item :: item in NewItems(env, items) ==> Injected(env, item) && (MarkerFree(env, items) ==> NoMarker(env, item))
    ensures Fenceless(env, items) <==> !exists item :: item in NewItems(env, items) && HasFence(item)
  {
    hide ItemOk, NewItem, Injected, NoMarker, HasFence;
    if items != [] {
      var item, rest := items[0], items[1..];
      assert item in items && items == [item] + rest;
      RunLeaves(env, rest);
      RunLeavesItem(env, item);
      if MarkerFree(env, items) {
        MarkerFreeItem(env, items);
        assert MarkerFree(env, rest);
      }
      assert NewItems(env, items) == [NewItem(env, item)] + NewItems(env, rest);
      assert Fenceless(env, items) <==> Fenceless(env, rest) && !HasFence(NewItem(env, item));
    }
  }

  lemma RunLeavesItem(env: Env, item: Item)
    requires ItemOk(env, item) && (item.Block? ==> env.marker(item.marker).Some? && env.read(env.marker(item.marker).value).Some?)
    ensures Injected(env, NewItem(env, item))
    ensures NewItem(env, item).Block? <==> item.Block?
    ensures HasFence(NewItem(env, item)) <==> item.Block? && FENCE in NewItem(env, item).body
  {
    hide Split, TrimNewlines;
  }

  /** No injected file has a line that is a marker itself. */
  ghost predicate MarkerFree(env: Env, items: seq<Item>) {
    forall item :: item in items && item.Block? ==>
      NewItem(env, item).Block? && forall l :: l in NewItem(env, item).body ==> env.marker(l).None?
  }

  lemma MarkerFreeItem(env: Env, items: seq<Item>)
    requires items != [] && MarkerFree(env, items)
    ensures NoMarker(env, NewItem(env, items[0]))
  {
    assert items[0] in items;
    hide Split, TrimNewlines;
  }

  /** The lines that a run makes of lines from i on, if it does not fail. */
  function Out(env: Env, lines: seq<string>, i: nat): seq<string> {
    if i <= |lines| && Inject(env, lines, i).Done? then Lines(Inject(env, lines, i).lines) else []
  }

  /** A run leaves the lines from i on as they are. */
  ghost predicate RepeatsFrom(env: Env, lines: seq<string>, i: nat) {
    i <= |lines| && Inject(env, lines, i).Done? && Out(env, lines, i) == lines[i..]
  }

  /** The lines before b end with those that close a block, or with a part of these that begins at a; f is where they begin. */
  ghost predicate Closing(env: Env, lines: seq<string>, a: nat, f: nat, b: nat) {
    && a <= f < b <= |lines|
    && !env.blank(lines[b - 1]) && env.isEnd(lines[b - 1])
    && (forall k :: f < k < b - 1 ==> env.blank(lines[k]))
    && (f == b - 1 || lines[f] == FENCE || env.blank(lines[f]))
    && (f == a || (f < b - 1 && lines[f] == FENCE))
  }

  lemma ClosingIsPlain(env: Env, lines: seq<string>, a: nat, f: nat, b: nat)
    requires EnvOk(env) && Closing(env, lines, a, f, b)
    ensures forall k :: f <= k < b ==> env.marker(lines[k]).None?
    ensures forall l :: l in lines[f..b] ==> env.marker(l).None?
  {
    forall k | f <= k < b ensures env.marker(lines[k]).None? {
      assert k == f || k == b - 1 || f < k < b - 1;
    }
  }

  lemma PlainOut(env: Env, lines: seq<string>, i: nat, j: nat)
    requires i <= j <= |lines| && SingleLines(lines) && Inject(env, lines, i).Done?
    requires forall l :: l in lines[i..j] ==> env.marker(l).None?
    ensures Inject(env, lines, j).Done? && Out(env, lines, i) == lines[i..j] + Out(env, lines, j)
  {
    PlainLines(env, lines, i, j);
    PartIsSingle(lines, i, j);
    LinesOfSingle(lines[i..j]);
    hide Inject, Lines, SingleLines;
    LinesConcat(lines[i..j], Inject(env, lines, j).lines);
  }

  /** A block: its marker and opening fence, the file, and what closes it. */
  lemma BlockOut(env: Env, lines: seq<string>, i: nat) returns (body: seq<string>)
    requires i < |lines| && SingleLines(lines) && env.marker(lines[i]).Some? && Inject(env, lines, i).Done?
    ensures IsBlock(env, lines, i) && body != [] && env.read(env.marker(lines[i]).value).Some?
    ensures body == Split(TrimNewlines(env.read(env.marker(lines[i]).value).value))
    ensures var close, end := CloseOf(lines, i), EndOf(env, lines, i);
            && i + 2 <= close < end < |lines| && Inject(env, lines, end + 1).Done?
            && Out(env, lines, i) == [lines[i], lines[i + 1]] + body + lines[close..end + 1] + Out(env, lines, end + 1)
  {
    BlockRuns(env, lines, i);
    BlockPrint(env, lines, i);
    RewrittenLines(env, lines, i);
    RewrittenParts(env, lines, i);
    body := Split(TrimNewlines(env.read(env.marker(lines[i]).value).value));
    hide Inject, CloseOf, EndOf, Rewritten, Lines, Split, TrimNewlines, Problem, IsBlock, SingleLines, PrintItem, NewItem, BlockAt;
    LinesConcat(Rewritten(env, lines, i), Inject(env, lines, EndOf(env, lines, i) + 1).lines);
  }

  /** From a on a run either copies the closing lines at f and goes on behind them, or takes their fence for an opening one. */
  ghost predicate Reaches(env: Env, lines: seq<string>, a: nat, f: nat, b: nat, front: seq<string>) {
    && f < b <= |lines| && a <= f
    && Inject(env, lines, a).Done? && Inject(env, lines, b).Done?
    && (f == a ==> front == [])
    && Out(env, lines, a) == front + lines[f..b] + Out(env, lines, b)
  }

  ghost predicate Reopens(env: Env, lines: seq<string>, a: nat, m: nat, front: seq<string>) {
    && a <= m && m + 1 < |lines| && lines[m + 1] == FENCE && env.marker(lines[m]).Some?
    && Inject(env, lines, a).Done? && Inject(env, lines, m).Done?
    && Out(env, lines, a) == front + Out(env, lines, m)
  }

  lemma ReachesFrom(env: Env, lines: seq<string>, a: nat, next: nat, f: nat, b: nat, first: seq<string>, front: seq<string>)
    requires a < next <= f && f < |lines| && Inject(env, lines, a).Done? && Inject(env, lines, next).Done?
    requires Out(env, lines, a) == first + Out(env, lines, next)
    ensures Reaches(env, lines, next, f, b, front) ==> Reaches(env, lines, a, f, b, first + front)
    ensures Reopens(env, lines, next, f - 1, front) ==> Reopens(env, lines, a, f - 1, first + front)
  {
    hide Inject, Out;
    if Reaches(env, lines, next, f, b, front) {
      assert first + (front + lines[f..b] + Out(env, lines, b)) == (first + front) + lines[f..b] + Out(env, lines, b);
    }
    if Reopens(env, lines, next, f - 1, front) {
      assert first + (front + Out(env, lines, f - 1)) == (first + front) + Out(env, lines, f - 1);
    }
  }

  /** The block at a marker before the closing lines ends with them or before them, unless their fence opens it. */
  lemma BlockBefore(env: Env, lines: seq<string>, a: nat, f: nat, b: nat)
    requires EnvOk(env) && Closing(env, lines, a, f, b) && a + 1 < f && IsBlock(env, lines, a)
    ensures EndOf(env, lines, a) + 1 <= f || (CloseOf(lines, a) == f && EndOf(env, lines, a) == b - 1)
  {
    var close, end := CloseOf(lines, a), EndOf(env, lines, a);
    BlockPrint(env, lines, a);
    assert close <= f by {
      assert lines[a + 2..f + 1][f - a - 2] == FENCE;
      FirstFence(lines, a + 2, f + 1);
    }
    BlankLines(env, lines, close + 1, end);
    hide CloseOf, EndOf;
  }

  lemma {:induction false} WalkToClosing(env: Env, lines: seq<string>, a: nat, f: nat, b: nat) returns (front: seq<string>)
    requires EnvOk(env) && SingleLines(lines) && Closing(env, lines, a, f, b) && Inject(env, lines, a).Done?
    ensures Reaches(env, lines, a, f, b, front) || (a < f && Reopens(env, lines, a, f - 1, front))
    decreases f - a
  {
    hide Inject, Out, EnvOk, SingleLines, IsBlock, CloseOf, EndOf, Split, TrimNewlines, Reaches, Reopens;
    if a == f {
      ClosingIsPlain(env, lines, a, f, b);
      PlainOut(env, lines, f, b);
      front := [];
      PlainReaches(env, lines, f, b);
    } else if env.marker(lines[a]).None? {
      PlainOut(env, lines, a, a + 1);
      var more := WalkToClosing(env, lines, a + 1, f, b);
      front := lines[a..a + 1] + more;
      ReachesFrom(env, lines, a, a + 1, f, b, lines[a..a + 1], more);
    } else if a + 1 == f {
      front := [];
      MarkerReopens(env, lines, f);
    } else {
      var body := BlockOut(env, lines, a);
      BlockBefore(env, lines, a, f, b);
      var end := EndOf(env, lines, a);
      var first := [lines[a], lines[a + 1]] + body + lines[CloseOf(lines, a)..end + 1];
      if end + 1 <= f {
        var more := WalkToClosing(env, lines, end + 1, f, b);
        front := first + more;
        ReachesFrom(env, lines, a, end + 1, f, b, first, more);
      } else {
        front := [lines[a], lines[a + 1]] + body;
        BlockReaches(env, lines, a, f, b, front);
      }
    }
  }

  lemma PlainReaches(env: Env, lines: seq<string>, f: nat, b: nat)
    requires f < b <= |lines| && Inject(env, lines, f).Done? && Inject(env, lines, b).Done?
    requires Out(env, lines, f) == lines[f..b] + Out(env, lines, b)
    ensures Reaches(env, lines, f, f, b, [])
  {
    hide Inject, Out;
    assert [] + lines[f..b] == lines[f..b];
  }

  lemma MarkerReopens(env: Env, lines: seq<string>, f: nat)
    requires 0 < f < |lines| && lines[f] == FENCE && env.marker(lines[f - 1]).Some? && Inject(env, lines, f - 1).Done?
    ensures Reopens(env, lines, f - 1, f - 1, [])
  {
    hide Inject, Out;
    assert [] + Out(env, lines, f - 1) == Out(env, lines, f - 1);
  }

  lemma BlockReaches(env: Env, lines: seq<string>, a: nat, f: nat, b: nat, front: seq<string>)
    requires a < f < b <= |lines| && Inject(env, lines, a).Done? && Inject(env, lines, b).Done?
    requires Out(env, lines, a) == front + lines[f..b] + Out(env, lines, b)
    ensures Reaches(env, lines, a, f, b, front)
  {}

  /** Lines that come out as the lines from b on, and where a part of them lies. */
  lemma PartAt(lines: seq<string>, b: nat, front: seq<string>, part: seq<string>, rest: seq<string>)
    requires b <= |lines| && lines[b..] == front + part + rest
    ensures var f, e := b + |front|, b + |front| + |part|; e <= |lines| && lines[f..e] == part && lines[e..] == rest
  {
    var whole, i := lines[b..], |front| + |part|;
    assert whole[|front|..i] == part && whole[i..] == rest;
    assert lines[b + |front|..b + i] == whole[|front|..i] && lines[b + i..] == whole[i..];
  }

  /** The closing lines between i and j, written again up to b, close there too, as seen from a. */
  lemma ClosingAgain(env: Env, lines: seq<string>, i: nat, j: nat, a: nat, f: nat, b: nat)
    requires i < j <= |lines| && f < b <= |lines| && b - f == j - i && lines[f..b] == lines[i..j]
    requires !env.blank(lines[j - 1]) && env.isEnd(lines[j - 1]) && forall k :: i < k < j - 1 ==> env.blank(lines[k])
    requires i < j - 1 && lines[i] == FENCE && a < b
    ensures Closing(env, lines, a, if f < a then a else f, b)
  {
    forall k | f <= k < b ensures lines[k] == lines[i + (k - f)] && (f < k < b - 1 ==> env.blank(lines[k])) {
      assert lines[f..b][k - f] == lines[i..j][k - f];
    }
  }

  /** The same for closing lines of which only a part begins at a. */
  lemma ClosingPartAgain(env: Env, lines: seq<string>, a: nat, b: nat, b': nat)
    requires Closing(env, lines, a, a, b) && b' == b + (b - a) && b' <= |lines| && lines[b..b'] == lines[a..b]
    ensures Closing(env, lines, b, b, b')
  {
    forall k | b <= k < b' ensures lines[k] == lines[a + (k - b)] && (b < k < b' - 1 ==> env.blank(lines[k])) {
      assert lines[b..b'][k - b] == lines[a..b][k - b];
    }
  }

  /** What follows closing lines never comes out of a run over these and what follows them: the run would have to use up lines forever. */
  lemma {:induction false} NeverCatchesUp(env: Env, lines: seq<string>, a: nat, f: nat, b: nat)
    requires EnvOk(env) && SingleLines(lines) && Closing(env, lines, a, f, b) && Inject(env, lines, a).Done?
    ensures Out(env, lines, a) != lines[b..]
    decreases |lines| - b, 1
  {
    hide Inject, Out, SingleLines, Reaches, Reopens;
    if Out(env, lines, a) == lines[b..] {
      var front := WalkToClosing(env, lines, a, f, b);
      if Reaches(env, lines, a, f, b, front) {
        CopiedClosing(env, lines, a, f, b, front);
      } else {
        ReopenedClosing(env, lines, a, f, b, front);
      }
    }
  }

  lemma {:induction false} CopiedClosing(env: Env, lines: seq<string>, a: nat, f: nat, b: nat, front: seq<string>)
    requires EnvOk(env) && SingleLines(lines) && Closing(env, lines, a, f, b) && Inject(env, lines, a).Done?
    requires Reaches(env, lines, a, f, b, front)
    ensures Out(env, lines, a) != lines[b..]
    decreases |lines| - b, 0
  {
    ClosingParts(env, lines, a, f, b);
    hide *;
    if Out(env, lines, a) == lines[b..] {
      var f', b' := CopiedStep(env, lines, a, f, b, front);
      ClosingParts(env, lines, b, f', b');
      NeverCatchesUp(env, lines, b, f', b');
    }
  }

  /** What comes out behind copied closing lines is again what follows such lines, further on. */
  lemma CopiedStep(env: Env, lines: seq<string>, a: nat, f: nat, b: nat, front: seq<string>) returns (f': nat, b': nat)
    requires Closing(env, lines, a, f, b) && Reaches(env, lines, a, f, b, front) && b <= |lines| && Out(env, lines, a) == lines[b..]
    ensures b < b' && Closing(env, lines, b, f', b') && Inject(env, lines, b).Done? && Out(env, lines, b) == lines[b'..]
  {
    hide *;
    f', b' := CopyBehind(env, lines, a, f, b, front);
    CopiedAgain(env, lines, a, f, b, f', b');
  }

  lemma CopyBehind(env: Env, lines: seq<string>, a: nat, f: nat, b: nat, front: seq<string>) returns (f': nat, b': nat)
    requires Reaches(env, lines, a, f, b, front) && b <= |lines| && Out(env, lines, a) == lines[b..]
    ensures f < b < b' && f' == b + |front| && b' == f' + (b - f) <= |lines| && (f == a ==> f' == b)
    ensures lines[f'..b'] == lines[f..b] && Inject(env, lines, b).Done? && Out(env, lines, b) == lines[b'..]
  {
    hide Inject, Out;
    f', b' := b + |front|, b + |front| + (b - f);
    PartAt(lines, b, front, lines[f..b], Out(env, lines, b));
  }

  lemma CopiedAgain(env: Env, lines: seq<string>, a: nat, f: nat, b: nat, f': nat, b': nat)
    requires Closing(env, lines, a, f, b) && f < b && b <= f' && (f == a ==> f' == b)
    requires b' == f' + (b - f) <= |lines| && lines[f'..b'] == lines[f..b]
    ensures Closing(env, lines, b, f', b')
  {
    if f == a {
      ClosingPartAgain(env, lines, a, b, b');
    } else {
      ClosingAgain(env, lines, f, b, b, f', b');
    }
  }

  lemma ReopenedOut(env: Env, lines: seq<string>, a: nat, m: nat, front: seq<string>) returns (body: seq<string>)
    requires SingleLines(lines) && Reopens(env, lines, a, m, front)
    ensures IsBlock(env, lines, m) && body != []
    ensures var close, end := CloseOf(lines, m), EndOf(env, lines, m);
            && close <= end < |lines| && Inject(env, lines, end + 1).Done?
            && Out(env, lines, a) == front + ([lines[m], lines[m + 1]] + body + lines[close..end + 1] + Out(env, lines, end + 1))
  {
    hide Inject, Out, SingleLines, CloseOf, EndOf, IsBlock, Split, TrimNewlines;
    body := BlockOut(env, lines, m);
  }

  lemma ClosingParts(env: Env, lines: seq<string>, a: nat, f: nat, b: nat)
    requires Closing(env, lines, a, f, b)
    ensures a <= f < b <= |lines| && (a < f ==> lines[f] == FENCE)
  {}

  /** What comes out behind a reopened block is again what follows closing lines, further on. */
  lemma ReopenedStep(env: Env, lines: seq<string>, a: nat, f: nat, b: nat, front: seq<string>) returns (a': nat, f': nat, b': nat)
    requires SingleLines(lines) && 0 < f < b <= |lines| && lines[f] == FENCE
    requires Reopens(env, lines, a, f - 1, front) && Out(env, lines, a) == lines[b..]
    ensures b < b' && Closing(env, lines, a', f', b') && Inject(env, lines, a').Done? && Out(env, lines, a') == lines[b'..]
  {
    hide *;
    var m := f - 1;
    var body := ReopenedOut(env, lines, a, m, front);
    a' := EndOf(env, lines, m) + 1;
    ReopenedAgain(env, lines, f, b, front, body, Out(env, lines, a'));
    f' := b + |front| + 2 + |body|;
    b' := f' + (a' - CloseOf(lines, m));
    f' := if f' < a' then a' else f';
  }

  lemma {:induction false} ReopenedClosing(env: Env, lines: seq<string>, a: nat, f: nat, b: nat, front: seq<string>)
    requires EnvOk(env) && SingleLines(lines) && Closing(env, lines, a, f, b) && Inject(env, lines, a).Done?
    requires a < f && Reopens(env, lines, a, f - 1, front)
    ensures Out(env, lines, a) != lines[b..]
    decreases |lines| - b, 0
  {
    ClosingParts(env, lines, a, f, b);
    hide *;
    if Out(env, lines, a) == lines[b..] {
      var a', f', b' := ReopenedStep(env, lines, a, f, b, front);
      ClosingParts(env, lines, a', f', b');
      NeverCatchesUp(env, lines, a', f', b');
    }
  }

  lemma ReopenedAgain(env: Env, lines: seq<string>, f: nat, b: nat, front: seq<string>, body: seq<string>, rest: seq<string>)
    requires 0 < f < b <= |lines| && lines[f] == FENCE && body != [] && IsBlock(env, lines, f - 1)
    requires var tail := lines[CloseOf(lines, f - 1)..EndOf(env, lines, f - 1) + 1];
             lines[b..] == front + ([lines[f - 1], lines[f]] + body + tail + rest)
    ensures var close, end := CloseOf(lines, f - 1), EndOf(env, lines, f - 1);
            var f', b' := b + |front| + 2 + |body|, b + |front| + 2 + |body| + (end + 1 - close);
            b' <= |lines| && Closing(env, lines, end + 1, if f' < end + 1 then end + 1 else f', b') && rest == lines[b'..]
  {
    hide *;
    BlockCloses(env, lines, f - 1);
    var close, end := CloseOf(lines, f - 1), EndOf(env, lines, f - 1);
    Regrouped(front, [lines[f - 1], lines[f]], body, lines[close..end + 1], rest);
    ClosesEarly(env, lines, f, b, front, body + lines[close..end + 1] + rest);
    CopyCloses(env, lines, f, b, front, body, close, end, rest);
  }

  lemma CopyCloses(env: Env, lines: seq<string>, f: nat, b: nat, front: seq<string>, body: seq<string>, close: nat, end: nat, rest: seq<string>)
    requires 0 < f < b <= |lines| && body != [] && close < end < |lines| && close < b + |front| + 2
    requires lines[close] == FENCE && env.isEnd(lines[end]) && !env.blank(lines[end]) && forall k :: close < k < end ==> env.blank(lines[k])
    requires lines[b..] == front + ([lines[f - 1], lines[f]] + body + lines[close..end + 1] + rest)
    ensures var f', b' := b + |front| + 2 + |body|, b + |front| + 2 + |body| + (end + 1 - close);
            b' <= |lines| && Closing(env, lines, end + 1, if f' < end + 1 then end + 1 else f', b') && rest == lines[b'..]
  {
    CopiedAt(lines, f, b, front, body, lines[close..end + 1], rest);
    hide *;
    var f' := b + |front| + 2 + |body|;
    ClosingAgain(env, lines, close, end + 1, end + 1, f', f' + (end + 1 - close));
  }

  lemma BlockCloses(env: Env, lines: seq<string>, i: nat)
    requires IsBlock(env, lines, i)
    ensures var close, end := CloseOf(lines, i), EndOf(env, lines, i);
            && i + 2 <= close < end < |lines| && lines[close] == FENCE && env.isEnd(lines[end]) && !env.blank(lines[end])
            && forall k :: close < k < end ==> env.blank(lines[k])
  {
    BlockPrint(env, lines, i);
    BlankLines(env, lines, CloseOf(lines, i) + 1, EndOf(env, lines, i));
    hide PrintItem, BlockAt;
  }

  lemma Regrouped(front: seq<string>, two: seq<string>, body: seq<string>, tail: seq<string>, rest: seq<string>)
    ensures front + (two + body + tail + rest) == (front + two + body) + tail + rest
    ensures front + (two + body + tail + rest) == front + two + (body + tail + rest)
  {}

  lemma CopiedAt(lines: seq<string>, f: nat, b: nat, front: seq<string>, body: seq<string>, tail: seq<string>, rest: seq<string>)
    requires 0 < f < b <= |lines| && lines[b..] == front + ([lines[f - 1], lines[f]] + body + tail + rest)
    ensures var f' := b + |front| + 2 + |body|; f' + |tail| <= |lines| && lines[f'..f' + |tail|] == tail && lines[f' + |tail|..] == rest
  {
    Regrouped(front, [lines[f - 1], lines[f]], body, tail, rest);
    PartAt(lines, b, front + [lines[f - 1], lines[f]] + body, tail, rest);
  }

  /** A block opened by the closing fence at f ends at the copy of that fence at the latest. */
  lemma ClosesEarly(env: Env, lines: seq<string>, f: nat, b: nat, front: seq<string>, rest: seq<string>)
    requires 0 < f < b <= |lines| && lines[f] == FENCE && lines[b..] == front + [lines[f - 1], lines[f]] + rest
    ensures CloseOf(lines, f - 1) < b + |front| + 2
  {
    PartAt(lines, b, front, [lines[f - 1], lines[f]], rest);
    assert lines[b + |front|..b + |front| + 2][1] == FENCE;
    assert lines[f + 1..b + |front| + 2][b + |front| + 1 - (f + 1)] == FENCE;
    FirstFence(lines, f + 1, b + |front| + 2);
  }

  // ---- The only texts that a second run leaves alone ----

  /** The lines that close a printed block, as seen from a place in its body. */
  lemma LaidCloses(env: Env, lines: seq<string>, n: nat, item: Item, a: nat)
    requires Injected(env, item) && item.Block? && Laid(lines, n, item) && a <= n + 2 + |item.body|
    ensures Closing(env, lines, a, n + 2 + |item.body|, n + 4 + |item.body| + |item.blanks|)
  {
    hide Split, TrimNewlines;
    var close := n + 2 + |item.body|;
    var end := close + 1 + |item.blanks|;
    forall k | close < k < end ensures env.blank(lines[k]) {
      assert lines[close + 1..end][k - close - 1] == lines[k];
    }
  }

  /** Two runs of closing lines that begin alike are equally long. */
  lemma SameClosing(env: Env, lines: seq<string>, i: nat, j: nat, a: nat, f: nat, b: nat)
    requires i < j < |lines| && lines[i] == FENCE && !env.blank(lines[j]) && forall k :: i < k < j ==> env.blank(lines[k])
    requires Closing(env, lines, a, f, b) && lines[f] == FENCE && !env.isEnd(FENCE)
    requires f + (j - i) < |lines| && lines[f..f + (j + 1 - i)] == lines[i..j + 1]
    ensures f + (j + 1 - i) == b
  {
    forall k | f <= k <= f + (j - i) ensures lines[k] == lines[i + (k - f)] && (f < k < f + (j - i) ==> env.blank(lines[k])) {
      assert lines[f..f + (j + 1 - i)][k - f] == lines[i..j + 1][k - f];
    }
    var e := f + (j - i);
    assert lines[e] == lines[j];
  }

  /** What follows a block that comes out as it was. */
  lemma TailRepeats(env: Env, lines: seq<string>, n: nat, body: seq<string>, i: nat, j: nat, a: nat, f: nat, b: nat, rest: seq<string>)
    requires i < j < |lines| && lines[i] == FENCE && !env.blank(lines[j]) && forall k :: i < k < j ==> env.blank(lines[k])
    requires f == n + 2 + |body| && Closing(env, lines, a, f, b) && lines[f] == FENCE && !env.isEnd(FENCE)
    requires lines[n..] == [lines[n], lines[n + 1]] + body + lines[i..j + 1] + rest
    ensures rest == lines[b..]
  {
    ClosingParts(env, lines, a, f, b);
    hide *;
    PartAt(lines, n, [lines[n], lines[n + 1]] + body, lines[i..j + 1], rest);
    SameClosing(env, lines, i, j, a, f, b);
  }

  /** A fence in the body closes the block early, and the block's own closing lines are left over. */
  lemma FencedCloses(env: Env, lines: seq<string>, n: nat, item: Item)
    requires EnvOk(env) && Injected(env, item) && HasFence(item) && Laid(lines, n, item) && IsBlock(env, lines, n)
    ensures var f := n + 2 + |item.body|;
            && EndOf(env, lines, n) < f < |lines| && lines[f] == FENCE && !env.isEnd(FENCE)
            && Closing(env, lines, EndOf(env, lines, n) + 1, f, n + 4 + |item.body| + |item.blanks|)
  {
    FenceCloses(env, lines, n, item);
    hide Injected, CloseOf, EndOf, IsBlock, Closing;
    LaidCloses(env, lines, n, item, EndOf(env, lines, n) + 1);
  }

  lemma FencedBlockDiffers(env: Env, lines: seq<string>, n: nat, item: Item)
    requires EnvOk(env) && item.Block? && Injected(env, item) && HasFence(item) && Laid(lines, n, item)
    requires n < |lines| && lines[n] == item.marker && SingleLines(lines)
    ensures !RepeatsFrom(env, lines, n)
  {
    hide *;
    if RepeatsFrom(env, lines, n) {
      RepeatsParts(env, lines, n);
      InjectedBody(env, item);
      var body := BlockOut(env, lines, n);
      BlockCloses(env, lines, n);
      FencedCloses(env, lines, n, item);
      var end, f, b := EndOf(env, lines, n), n + 2 + |item.body|, n + 4 + |item.body| + |item.blanks|;
      ClosingParts(env, lines, end + 1, f, b);
      TailRepeats(env, lines, n, body, CloseOf(lines, n), end, end + 1, f, b, Out(env, lines, end + 1));
      NeverCatchesUp(env, lines, end + 1, f, b);
    }
  }

  lemma OtherBlockRepeats(env: Env, lines: seq<string>, n: nat, item: Item)
    requires Injected(env, item) && item.Block? && !HasFence(item) && Laid(lines, n, item)
    requires n < |lines| && lines[n] == item.marker && SingleLines(lines) && RepeatsFrom(env, lines, n)
    ensures RepeatsFrom(env, lines, n + 4 + |item.body| + |item.blanks|)
  {
    hide *;
    InjectedIsOk(env, item);
    InjectedBody(env, item);
    BlockFound(env, lines, n, item);
    ClosedWhere(lines, n, item);
    RepeatsParts(env, lines, n);
    var body := BlockOut(env, lines, n);
    BlockRepeats(env, lines, n, body);
  }

  lemma RepeatsParts(env: Env, lines: seq<string>, i: nat)
    requires RepeatsFrom(env, lines, i)
    ensures i <= |lines| && Inject(env, lines, i).Done? && Out(env, lines, i) == lines[i..]
  {}

  lemma BlockRepeats(env: Env, lines: seq<string>, n: nat, body: seq<string>)
    requires IsBlock(env, lines, n) && n + 2 <= CloseOf(lines, n) < EndOf(env, lines, n) < |lines| && CloseOf(lines, n) == n + 2 + |body|
    requires Inject(env, lines, EndOf(env, lines, n) + 1).Done?
    requires var next := EndOf(env, lines, n) + 1;
             lines[n..] == [lines[n], lines[n + 1]] + body + lines[CloseOf(lines, n)..next] + Out(env, lines, next)
    ensures RepeatsFrom(env, lines, EndOf(env, lines, n) + 1)
  {
    var close, next := CloseOf(lines, n), EndOf(env, lines, n) + 1;
    hide CloseOf, EndOf, IsBlock, Inject, Out;
    PartAt(lines, n, [lines[n], lines[n + 1]] + body, lines[close..next], Out(env, lines, next));
  }

  lemma OtherLineRepeats(env: Env, lines: seq<string>, n: nat)
    requires n < |lines| && env.marker(lines[n]).None? && SingleLines(lines) && RepeatsFrom(env, lines, n)
    ensures RepeatsFrom(env, lines, n + 1)
  {
    PlainOut(env, lines, n, n + 1);
    hide Inject, Out, SingleLines;
    assert lines[n..n + 1] + [] == lines[n..n + 1];
    PartAt(lines, n, lines[n..n + 1], [], Out(env, lines, n + 1));
  }

  /** If a run leaves the lines from n on as they are, then also those behind the first item, unless its body holds a fence. */
  lemma OthersRepeat(env: Env, lines: seq<string>, n: nat, item: Item, rest: seq<string>)
    requires Injected(env, item) && !HasFence(item) && n <= |lines| && lines[n..] == PrintItem(item) + rest
    requires SingleLines(lines) && RepeatsFrom(env, lines, n)
    ensures RepeatsFrom(env, lines, n + |PrintItem(item)|)
  {
    hide RepeatsFrom, SingleLines, PrintItem, Laid, HasFence;
    if item.Block? {
      LaidAt(lines, n, item, rest);
      StartsWithMarker(lines, n, item);
      hide Injected;
      OtherBlockRepeats(env, lines, n, item);
    } else {
      PlainAt(lines, n, item.line, rest);
      OtherLineRepeats(env, lines, n);
    }
  }

  /** A run changes what a run left if a body holds a fence, whatever else the bodies hold. */
  lemma {:induction false} FencedRunDiffers(env: Env, lines: seq<string>, n: nat, items: seq<Item>)
    requires EnvOk(env) && (forall item :: item in items ==> Injected(env, item)) && (exists item :: item in items && HasFence(item))
    requires n <= |lines| && lines[n..] == Print(items) && SingleLines(lines)
    ensures !RepeatsFrom(env, lines, n)
    decreases |items|
  {
    hide Injected, PrintItem, EnvOk, HasFence, SingleLines, RepeatsFrom, Laid;
    var item, rest := items[0], items[1..];
    assert items == [item] + rest && item in items;
    if HasFence(item) {
      IsBlockItem(item);
      LaidAt(lines, n, item, Print(rest));
      StartsWithMarker(lines, n, item);
      FencedBlockDiffers(env, lines, n, item);
    } else if RepeatsFrom(env, lines, n) {
      OthersRepeat(env, lines, n, item, Print(rest));
      RestFollows(lines, n, PrintItem(item), Print(rest));
      FencedRunDiffers(env, lines, n + |PrintItem(item)|, rest);
    }
  }

  lemma StartsWithMarker(lines: seq<string>, n: nat, item: Item)
    requires item.Block? && Laid(lines, n, item)
    ensures n < |lines| && lines[n] == item.marker
  {}

  lemma IsBlockItem(item: Item)
    requires HasFence(item)
    ensures item.Block?
  {}

  /** A second run returns the same text if and only if no injected line is a closing fence. Otherwise it fails or changes the text, and
      makes it longer if no injected line is a marker. */
  lemma SecondRunExactly(env: Env, text: string)
    requires EnvOk(env) && Process(env, text).Done? && Parse(env, Split(text), 0).Some?
    ensures var items, once := Parse(env, Split(text), 0).value, Process(env, text);
            var twice := Process(env, once.lines[0]);
            && (twice == once <==> Fenceless(env, items))
            && (!Fenceless(env, items) && MarkerFree(env, items) ==>
                  twice.Failed? || |Split(twice.lines[0])| > |Split(once.lines[0])|)
  {
    var items := Parse(env, Split(text), 0).value;
    var updated := Process(env, text).lines[0];
    ProcessGives(env, text);
    RunLeaves(env, items);
    if Fenceless(env, items) {
      SecondRunChangesNothing(env, text);
    } else if Process(env, updated).Done? {
      SplitGivesSingleLines(updated);
      assert Split(updated)[0..] == Print(NewItems(env, items));
      var again := Inject(env, Split(updated), 0).lines;
      InjectIsReplacement(env, Split(updated), 0);
      SplitJoin(again);
      assert Process(env, updated).lines[0] == Join(again) && Split(Join(again)) == Out(env, Split(updated), 0);
      hide Injected, NoMarker, HasFence, Split, Inject, Out, EnvOk, SingleLines, Lines, Print, Fenceless, NewItems;
      FencedRunDiffers(env, Split(updated), 0, NewItems(env, items));
      if MarkerFree(env, items) {
        RunGrows(env, Split(updated), 0, NewItems(env, items));
      }
    }
  }

  /** A run keeps every line outside of the fenced bodies, in order. */
  lemma OutsideIsKept(env: Env, text: string)
    requires Process(env, text).Done? && Parse(env, Split(text), 0).Some? && Fenceless(env, Parse(env, Split(text), 0).value)
    ensures var items, items' := Parse(env, Split(text), 0), Parse(env, Split(Process(env, text).lines[0]), 0);
            items'.Some? && Outside(items'.value) == Outside(items.value)
  {
    var items := Parse(env, Split(text), 0).value;
    ProcessGives(env, text);
    NewItemsStable(env, items);
    ParsePrint(env, [], NewItems(env, items));
    assert [] + Print(NewItems(env, items)) == Print(NewItems(env, items));
    OutsideStays(env, items);
  }

  lemma InjectOneBlock(env: Env, lines: seq<string>, content: string)
    requires |lines| >= 4 && env.marker(lines[0]).Some? && env.read(env.marker(lines[0]).value) == Some(content)
    requires lines[1] == FENCE && lines[2] == FENCE && !env.blank(lines[3])
    ensures Inject(env, lines, 0) ==
            if env.isEnd(lines[3]) then Prefixed([lines[0], FENCE, TrimNewlines(content)] + lines[2..4], Inject(env, lines, 4)) else Failed(NoEndMarker)
  {
    SkipBodyFinds(lines, 2, 2);
    SkipBlankFinds(env, lines, 3, 3);
  }

  /** With a file that holds a closing fence the second run fails: it takes that line for the end of the block. */
  lemma FenceInFileBreaks(env: Env, m: string, end: string)
    requires '\n' !in m && '\n' !in end && env.marker(m).Some? && env.read(env.marker(m).value) == Some(FENCE)
    requires env.isEnd(end) && !env.blank(end) && !env.blank(FENCE) && !env.isEnd(FENCE)
    ensures var once := Process(env, Join([m, FENCE, FENCE, end]));
            once == Done([Join([m, FENCE, FENCE, FENCE, end])]) && Process(env, once.lines[0]) == Failed(NoEndMarker)
  {
    var before, after := [m, FENCE, FENCE, end], [m, FENCE, FENCE, FENCE, end];
    assert '\n' !in FENCE && TrimNewlines(FENCE) == FENCE;
    assert [m, FENCE, FENCE] + before[2..4] + [] == after;
    hide *;
    FenceLines(before);
    FenceLines(after);
    FenceRun(env, before);
    FenceRun(env, after);
  }

  lemma FenceLines(lines: seq<string>)
    requires lines != [] && forall l :: l in lines ==> '\n' !in l
    ensures Split(Join(lines)) == lines
  {
    hide Split, Join, Lines;
    LinesOfSingle(lines);
    SplitJoin(lines);
  }

  /** A run over a block with an empty body whose file is a fence. */
  lemma FenceRun(env: Env, lines: seq<string>)
    requires |lines| >= 4 && env.marker(lines[0]).Some? && env.read(env.marker(lines[0]).value) == Some(FENCE) && TrimNewlines(FENCE) == FENCE
    requires lines[1] == FENCE && lines[2] == FENCE && !env.blank(lines[3]) && Split(Join(lines)) == lines
    ensures !env.isEnd(lines[3]) ==> Process(env, Join(lines)) == Failed(NoEndMarker)
    ensures env.isEnd(lines[3]) && |lines| == 4 ==> Process(env, Join(lines)) == Done([Join([lines[0], FENCE, FENCE] + lines[2..4] + [])])
  {
    InjectOneBlock(env, lines, FENCE);
    NothingLeft(env, lines);
    hide Split, Join, Inject, TrimNewlines;
  }

  lemma InjectBlockAndRest(env: Env, lines: seq<string>, content: string)
    requires |lines| >= 4 && env.marker(lines[0]).Some? && env.read(env.marker(lines[0]).value) == Some(content)
    requires lines[1] == FENCE && lines[2] == FENCE && !env.blank(lines[3]) && env.isEnd(lines[3])
    requires TrimNewlines(content) == content && forall l :: l in lines[4..] ==> env.marker(l).None?
    ensures Inject(env, lines, 0) == Done([lines[0], FENCE, content] + lines[2..])
  {
    InjectOneBlock(env, lines, content);
    NothingLeft(env, lines);
    assert lines[4..|lines|] == lines[4..];
    PlainLines(env, lines, 4, |lines|);
    hide Inject, TrimNewlines;
    FrontAndRest([lines[0], FENCE, content], lines[2..4], lines[4..], lines[2..]);
  }

  lemma FrontAndRest(front: seq<string>, a: seq<string>, b: seq<string>, whole: seq<string>)
    requires a + b == whole
    ensures front + a + (b + []) == front + whole
  {}

  lemma PartsOfFence(end: string)
    requires '\n' !in end
    ensures Split(Join([FENCE, end])) == [FENCE, end]
  {
    assert '\n' !in FENCE;
    SplitJoin([FENCE, end]);
    LinesOfSingle([FENCE, end]);
  }

  /** The lines that one run leaves of a block with an empty body and of what follows, if the file ends a block itself. */
  lemma RunOverBlock(env: Env, lines: seq<string>, end: string, text: string)
    requires Split(text) == lines && |lines| >= 4 && SingleLines(lines) && '\n' !in end && end != ""
    requires env.marker(lines[0]).Some? && env.read(env.marker(lines[0]).value) == Some(Join([FENCE, end]))
    requires lines[1] == FENCE && lines[2] == FENCE && !env.blank(lines[3]) && env.isEnd(lines[3])
    requires forall l :: l in lines[4..] ==> env.marker(l).None?
    ensures Process(env, text).Done? && Split(Process(env, text).lines[0]) == [lines[0], FENCE, FENCE, end] + lines[2..]
  {
    var content := Join([FENCE, end]);
    NothingToTrim(end);
    InjectBlockAndRest(env, lines, content);
    PartsOfFence(end);
    PartIsSingle(lines, 2, |lines|);
    assert '\n' !in lines[0];
    assert '\n' !in FENCE;
    hide Split, Join, TrimNewlines, Lines, Inject, SingleLines;
    assert lines[2..|lines|] == lines[2..];
    LinesOfBlock(lines[0], FENCE, content, lines[2..]);
    SplitJoin([lines[0], FENCE, content] + lines[2..]);
    assert [lines[0], FENCE] + [FENCE, end] + lines[2..] == [lines[0], FENCE, FENCE, end] + lines[2..];
  }

  lemma NothingToTrim(end: string)
    requires '\n' !in end && end != ""
    ensures TrimNewlines(Join([FENCE, end])) == Join([FENCE, end])
  {
    var content := Join([FENCE, end]);
    assert Join([end]) == end;
    assert [FENCE, end][1..] == [end];
    assert content == FENCE + "\n" + end;
    assert content[|content| - 1] == end[|end| - 1];
  }

  lemma NothingLeft(env: Env, lines: seq<string>)
    ensures Inject(env, lines, |lines|) == Done([])
  {}

  ghost predicate FileEndsBlock(env: Env, m: string, end: string) {
    && '\n' !in m && '\n' !in end && env.marker(m).Some? && env.read(env.marker(m).value) == Some(Join([FENCE, end]))
    && end != "" && env.isEnd(end) && !env.blank(end) && env.marker(end).None? && env.marker(FENCE).None?
  }

  lemma OneMoreRun(env: Env, m: string, end: string, more: seq<string>, text: string)
    requires FileEndsBlock(env, m, end) && (more == [] || more == [FENCE, end]) && Split(text) == [m, FENCE, FENCE, end] + more
    ensures Process(env, text).Done? && Split(Process(env, text).lines[0]) == [m, FENCE, FENCE, end, FENCE, end] + more
  {
    var lines := [m, FENCE, FENCE, end] + more;
    assert '\n' !in FENCE;
    assert SingleLines(lines) && lines[4..] == more && lines[2..] == [FENCE, end] + more;
    hide Split, Join, Process, SingleLines;
    RunOverBlock(env, lines, end, text);
  }

  /** With a fence and an end marker in the file the second run succeeds and makes the document longer. */
  lemma FenceAndEndInFileGrow(env: Env, m: string, end: string)
    requires FileEndsBlock(env, m, end)
    ensures var once := Process(env, Join([m, FENCE, FENCE, end]));
            && once.Done? && Split(once.lines[0]) == [m, FENCE, FENCE, end, FENCE, end]
            && Process(env, once.lines[0]).Done? && Split(Process(env, once.lines[0]).lines[0]) == [m, FENCE, FENCE, end, FENCE, end, FENCE, end]
  {
    var before := [m, FENCE, FENCE, end];
    assert '\n' !in FENCE;
    LinesOfSingle(before);
    SplitJoin(before);
    hide *;
    OneMoreRun(env, m, end, [], Join(before));
    OneMoreRun(env, m, end, [FENCE, end], Process(env, Join(before)).lines[0]);
  }

  // ---- A file with a fence and a marker ----

  lemma ProcessOf(env: Env, text: string, items: seq<Item>)
    requires ItemsOk(env, items) && Readable(env, items) && Split(text) == Print(items)
    ensures Process(env, text).Done? && Split(Process(env, text).lines[0]) == Print(NewItems(env, items))
  {
    SplitGivesSingleLines(text);
    ParsePrint(env, [], items);
    assert [] + Print(items) == Print(items);
    InjectIsReplacement(env, Split(text), 0);
    SplitJoin(Inject(env, Split(text), 0).lines);
    hide Split, Join, Print, Inject, Parse, NewItems, Lines;
  }

  const YAML := "```yaml"

  /** The file of marker m ends its block itself and goes on with marker g, whose file is one line. */
  ghost predicate FileGoesOn(env: Env, m: string, g: string, end: string, line: string) {
    && '\n' !in m && '\n' !in g && '\n' !in end && '\n' !in line && g != ""
    && env.marker(m).Some? && Some(Join([FENCE, end, g])) == env.read(env.marker(m).value)
    && env.marker(g).Some? && env.read(env.marker(g).value) == Some(line)
    && env.isEnd(end) && !env.blank(end) && end != FENCE && g != FENCE && line != FENCE
  }

  lemma FileLines(env: Env, m: string, g: string, end: string, line: string)
    requires FileGoesOn(env, m, g, end, line)
    ensures Split(TrimNewlines(Join([FENCE, end, g]))) == [FENCE, end, g] && Split(TrimNewlines(line)) == [line]
  {
    assert '\n' !in FENCE;
    SplitJoin([FENCE, end, g]);
    LinesOfSingle([FENCE, end, g]);
    SplitSingle(line);
    assert [FENCE, end, g][1..] == [end, g] && [end, g][1..] == [g];
    assert Join([g]) == g && Join([end, g]) == end + "\n" + g;
    assert Join([FENCE, end, g]) == FENCE + "\n" + Join([end, g]);
    assert Join([FENCE, end, g])[|Join([FENCE, end, g])| - 1] == g[|g| - 1];
    hide Split, Join, Lines;
  }

  function MarkedBlock(m: string, fence: string, body: seq<string>, end: string): Item {
    Block(m, fence, body, [], end)
  }

  /** With a fence and a marker in the file a second run can change the document without making it longer: the marker in the file takes
      the closing fence of its own block for an opening one. */
  lemma MarkerInFileMoves(env: Env, m: string, g: string, end: string, line: string, text: string)
    requires FileGoesOn(env, m, g, end, line) && Split(text) == [m, FENCE, FENCE, end, g, YAML, FENCE, end]
    ensures var once := Process(env, text);
            && once.Done? && Split(once.lines[0]) == [m, FENCE, FENCE, end, g, FENCE, end, g, YAML, line, FENCE, end]
            && var twice := Process(env, once.lines[0]);
            && twice.Done? && Split(twice.lines[0]) == [m, FENCE, FENCE, end, g, FENCE, end, g, FENCE, line, FENCE, end]
  {
    FileLines(env, m, g, end, line);
    var file := [FENCE, end, g];
    assert FENCE <= YAML && FENCE !in [end, g, YAML, line];
    LaidOut(m, FENCE, [], g, YAML, [], end);
    LaidOut(m, FENCE, file, g, YAML, [line], end);
    LaidOut(m, FENCE, [], g, FENCE, [end, g, YAML, line], end);
    LaidOut(m, FENCE, file, g, FENCE, [line], end);
    hide *;
    RunOverTwo(env, m, FENCE, [], g, YAML, [], end, file, [line], text);
    RunOverTwo(env, m, FENCE, [], g, FENCE, [end, g, YAML, line], end, file, [line], Process(env, text).lines[0]);
  }

  function TwoBlocksPrinted(m: string, fence1: string, body1: seq<string>, g: string, fence2: string, body2: seq<string>, end: string): seq<string> {
    [m, fence1] + body1 + [FENCE, end, g, fence2] + body2 + [FENCE, end]
  }

  lemma LaidOut(m: string, fence1: string, body1: seq<string>, g: string, fence2: string, body2: seq<string>, end: string)
    requires |body1| <= 3 && |body2| <= 4
    ensures var p := TwoBlocksPrinted(m, fence1, body1, g, fence2, body2, end);
            && (|body1| == 0 && |body2| == 0 ==> p == [m, fence1, FENCE, end, g, fence2, FENCE, end])
            && (|body1| == 3 && |body2| == 1 ==>
                  p == [m, fence1, body1[0], body1[1], body1[2], FENCE, end, g, fence2, body2[0], FENCE, end])
            && (|body1| == 0 && |body2| == 4 ==>
                  p == [m, fence1, FENCE, end, g, fence2, body2[0], body2[1], body2[2], body2[3], FENCE, end])
  {}

  lemma RunOverTwo(env: Env, m: string, fence1: string, body1: seq<string>, g: string, fence2: string, body2: seq<string>, end: string,
                   new1: seq<string>, new2: seq<string>, text: string)
    requires env.marker(m).Some? && env.read(env.marker(m).value).Some? && new1 == Split(TrimNewlines(env.read(env.marker(m).value).value))
    requires env.marker(g).Some? && env.read(env.marker(g).value).Some? && new2 == Split(TrimNewlines(env.read(env.marker(g).value).value))
    requires FENCE <= fence1 && FENCE <= fence2 && FENCE !in body1 && FENCE !in body2 && env.isEnd(end) && !env.blank(end)
    requires Split(text) == TwoBlocksPrinted(m, fence1, body1, g, fence2, body2, end)
    ensures Process(env, text).Done? && Split(Process(env, text).lines[0]) == TwoBlocksPrinted(m, fence1, new1, g, fence2, new2, end)
  {
    var items := [MarkedBlock(m, fence1, body1, end), MarkedBlock(g, fence2, body2, end)];
    TwoBlocks(env, m, fence1, body1, g, fence2, body2, end, new1, new2);
    assert ItemsOk(env, items) && Readable(env, items);
    hide Split, TrimNewlines, Process, Print, NewItems, ItemsOk, Readable;
    ProcessOf(env, text, items);
  }

  /** Two blocks as they are printed and as a run leaves them. */
  lemma TwoBlocks(env: Env, m: string, fence1: string, body1: seq<string>, g: string, fence2: string, body2: seq<string>, end: string,
                  new1: seq<string>, new2: seq<string>)
    requires env.marker(m).Some? && env.read(env.marker(m).value).Some? && new1 == Split(TrimNewlines(env.read(env.marker(m).value).value))
    requires env.marker(g).Some? && env.read(env.marker(g).value).Some? && new2 == Split(TrimNewlines(env.read(env.marker(g).value).value))
    ensures var items := [MarkedBlock(m, fence1, body1, end), MarkedBlock(g, fence2, body2, end)];
            && Print(items) == [m, fence1] + body1 + [FENCE, end, g, fence2] + body2 + [FENCE, end]
            && Print(NewItems(env, items)) == [m, fence1] + new1 + [FENCE, end, g, fence2] + new2 + [FENCE, end]
  {
    hide Split, TrimNewlines;
    var a, b := MarkedBlock(m, fence1, body1, end), MarkedBlock(g, fence2, body2, end);
    var a', b' := MarkedBlock(m, fence1, new1, end), MarkedBlock(g, fence2, new2, end);
    assert [a, b][1..] == [b] && [b][1..] == [] && [a', b'][1..] == [b'] && [b'][1..] == [];
    assert NewItems(env, []) == [] && NewItems(env, [b]) == [b'];
    assert NewItems(env, [a, b]) == [a', b'];
    PrintTwo(m, fence1, body1, g, fence2, body2, end);
    PrintTwo(m, fence1, new1, g, fence2, new2, end);
  }

  lemma PrintTwo(m: string, fence1: string, body1: seq<string>, g: string, fence2: string, body2: seq<string>, end: string)
    ensures Print([MarkedBlock(m, fence1, body1, end), MarkedBlock(g, fence2, body2, end)])
         == [m, fence1] + body1 + [FENCE, end, g, fence2] + body2 + [FENCE, end]
  {
    var a, b := MarkedBlock(m, fence1, body1, end), MarkedBlock(g, fence2, body2, end);
    assert [a, b][1..] == [b] && [b][1..] == [];
    assert Print([]) == [] && Print([b]) == PrintItem(b) + [];
    assert Print([a, b]) == PrintItem(a) + PrintItem(b);
  }

  lemma BlockGrows(env: Env, lines: seq<string>, last: string, i: nat)
    requires IsBlock(env, lines, i)
    ensures IsBlock(env, lines + [last], i) && EndOf(env, lines + [last], i) == EndOf(env, lines, i)
  {
    var more := lines + [last];
    var close, end := CloseOf(lines, i), EndOf(env, lines, i);
    assert more[i + 2..close] == lines[i + 2..close] && more[close + 1..end] == lines[close + 1..end];
    hide SkipBody, SkipBlank;
    SkipBodyFinds(more, i + 2, close);
    SkipBlankFinds(env, more, close + 1, end);
  }

  lemma BlockShrinks(env: Env, lines: seq<string>, last: string, i: nat)
    requires IsBlock(env, lines + [last], i) && EndOf(env, lines + [last], i) < |lines|
    ensures IsBlock(env, lines, i) && EndOf(env, lines, i) == EndOf(env, lines + [last], i)
  {
    var more := lines + [last];
    var close, end := CloseOf(more, i), EndOf(env, more, i);
    assert more[i + 2..close] == lines[i + 2..close] && more[close + 1..end] == lines[close + 1..end];
    hide SkipBody, SkipBlank;
    SkipBodyFinds(lines, i + 2, close);
    SkipBlankFinds(env, lines, close + 1, end);
  }

  /** Whether a block is one, and where it ends, does not depend on a line after it. */
  lemma BlockUnaffected(env: Env, lines: seq<string>, last: string, i: nat)
    requires i < |lines| && env.marker(lines[i]).Some?
    ensures var more := lines + [last];
            && (Problem(env, lines, i).None? ==> Problem(env, more, i).None? && i < EndOf(env, lines, i) == EndOf(env, more, i) < |lines|)
            && (Problem(env, lines, i).Some? ==>
                  Problem(env, more, i) != Some(Panic) && (Problem(env, more, i).None? ==> EndOf(env, more, i) + 1 == |more|))
  {
    var more := lines + [last];
    NoProblem(env, lines, i);
    NoProblem(env, more, i);
    PanicOnlyAtEnd(env, more, i);
    if IsBlock(env, lines, i) {
      BlockGrows(env, lines, last, i);
      BlockMarker(env, lines, i);
    } else if IsBlock(env, more, i) {
      BlockMarker(env, more, i);
      if EndOf(env, more, i) < |lines| {
        BlockShrinks(env, lines, last, i);
      }
    }
    hide IsBlock, EndOf, Problem;
  }

  /** The rest of the scan ends alike. */
  ghost predicate EndsAlike(a: Outcome, b: Outcome) {
    (a.Done? <==> b.Done?) && (a == Failed(Panic) <==> b == Failed(Panic))
  }

  lemma InjectEnds(env: Env, lines: seq<string>, i: nat)
    requires i < |lines|
    ensures env.marker(lines[i]).None? ==> EndsAlike(Inject(env, lines, i), Inject(env, lines, i + 1))
    ensures env.marker(lines[i]).Some? && Problem(env, lines, i).Some? ==> Inject(env, lines, i) == Failed(Problem(env, lines, i).value)
    ensures env.marker(lines[i]).Some? && Problem(env, lines, i).None? ==>
              EndOf(env, lines, i) < |lines| && EndsAlike(Inject(env, lines, i), Inject(env, lines, EndOf(env, lines, i) + 1))
  {
    hide Rewritten;
  }

  /** The tool reads past the end of the file exactly if the last line is a marker and all before it is in order. */
  lemma {:induction false} PanicExactly(env: Env, lines: seq<string>, last: string, i: nat)
    requires i <= |lines|
    ensures Inject(env, lines + [last], i) == Failed(Panic) <==> env.marker(last).Some? && Inject(env, lines, i).Done?
    decreases |lines| - i
  {
    var more := lines + [last];
    hide Problem, EndOf, Inject;
    NothingLeft(env, lines);
    NothingLeft(env, more);
    InjectEnds(env, more, i);
    if i == |lines| {
      assert more[i] == last;
      if env.marker(last).Some? {
        PanicOnlyAtEnd(env, more, i);
      }
    } else {
      assert more[i] == lines[i];
      InjectEnds(env, lines, i);
      if env.marker(lines[i]).None? {
        PanicExactly(env, lines, last, i + 1);
      } else {
        BlockUnaffected(env, lines, last, i);
        if Problem(env, lines, i).None? {
          PanicExactly(env, lines, last, EndOf(env, lines, i) + 1);
        }
      }
    }
  }

  lemma PanicOnlyAtEnd(env: Env, lines: seq<string>, i: nat)
    requires i < |lines| && env.marker(lines[i]).Some?
    ensures Problem(env, lines, i) == Some(Panic) <==> i + 1 == |lines|
  {}
}
