/**
 The bounded line decoder of harness output (src/harness/usage.ts:16-46), after UTF-8 decoding. Text arrives in chunks;
 a line longer than the limit is dropped as it grows, so at most `limit` bytes are ever kept.
 */
module JsonLines {
  import opened Basics

  /** What becomes of a complete line: it is not JSON, or the record callback accepts it or throws. */
  datatype Outcome = NotJson | Recorded | RecordFailed

  /** The callback may depend on the records it was given before. */
  type Judge = (seq<string>, string) -> Outcome

  datatype State = State(line: string, dropping: bool, invalid: bool, records: seq<string>)

  const INIT := State("", false, false, [])

  function Width(c: char): nat {
    var code := c as int;
    if code < 0x80 then 1 else if code < 0x800 then 2 else if code < 0x10000 then 3 else 4
  }

  /** `Buffer.byteLength` */
  function Bytes(text: string): nat {
    if text == "" then 0 else Bytes(text[..|text| - 1]) + Width(text[|text| - 1])
  }

  lemma {:induction false} BytesAppend(a: string, b: string)
    ensures Bytes(a + b) == Bytes(a) + Bytes(b)
  {
    if b == "" {
      assert a + b == a;
    } else {
      assert (a + b)[..|a + b| - 1] == a + b[..|b| - 1];
      BytesAppend(a, b[..|b| - 1]);
    }
  }

  function Handle(judge: Judge, s: State, line: string): State {
    match judge(s.records, line)
    case NotJson => s.(invalid := true)
    case Recorded => s.(records := s.records + [line])
    case RecordFailed => s.(records := s.records + [line], invalid := true)
  }

  // ----- Character by character -----

  function Take(limit: nat, s: State, text: string): State {
    if s.dropping then s
    else if Bytes(s.line) + Bytes(text) > limit then s.(line := "", dropping := true, invalid := true)
    else s.(line := s.line + text)
  }

  function EndLine(judge: Judge, s: State): State {
    (if s.dropping then s else Handle(judge, s, s.line)).(line := "", dropping := false)
  }

  function StepChar(judge: Judge, limit: nat, s: State, c: char): State {
    var t := Take(limit, s, [c]);
    if c == '\n' then EndLine(judge, t) else t
  }

  function Feed(judge: Judge, limit: nat, s: State, text: string): State {
    if text == "" then s else StepChar(judge, limit, Feed(judge, limit, s, text[..|text| - 1]), text[|text| - 1])
  }

  /** Feeding is a homomorphism: only the text counts, not where it was cut. */
  lemma {:induction false} FeedAppend(judge: Judge, limit: nat, s: State, a: string, b: string)
    ensures Feed(judge, limit, s, a + b) == Feed(judge, limit, Feed(judge, limit, s, a), b)
  {
    if b == "" {
      assert a + b == a;
    } else {
      assert (a + b)[..|a + b| - 1] == a + b[..|b| - 1];
      FeedAppend(judge, limit, s, a, b[..|b| - 1]);
    }
  }

  predicate Kept(limit: nat, s: State) {
    Bytes(s.line) <= limit && (s.dropping ==> s.line == "")
  }

  lemma {:induction false} FeedKeeps(judge: Judge, limit: nat, s: State, text: string)
    requires Kept(limit, s)
    ensures Kept(limit, Feed(judge, limit, s, text))
  {
    if text != "" {
      var before := text[..|text| - 1];
      FeedKeeps(judge, limit, s, before);
      BytesAppend(Feed(judge, limit, s, before).line, [text[|text| - 1]]);
    }
  }

  /** A piece of a line is taken as a whole exactly as it would be character by character. */
  lemma {:induction false} TakeWhole(judge: Judge, limit: nat, s: State, text: string)
    requires Kept(limit, s) && '\n' !in text
    ensures Feed(judge, limit, s, text) == Take(limit, s, text)
  {
    if text == "" {
      assert s.line + text == s.line;
    } else {
      var before, last := text[..|text| - 1], text[|text| - 1];
      assert text == before + [last];
      TakeWhole(judge, limit, s, before);
      BytesAppend(before, [last]);
      BytesAppend(s.line, before);
      assert s.line + before + [last] == s.line + text;
    }
  }

  function Whole(part: string): string {
    if part != "" && part[|part| - 1] == '\n' then part[..|part| - 1] else part
  }

  /** One turn of the loop in `consume`. */
  function ConsumePart(judge: Judge, limit: nat, s: State, part: string): State {
    var t := Take(limit, s, part);
    if part != "" && part[|part| - 1] == '\n' then EndLine(judge, t) else t
  }

  lemma ConsumePartIsFeed(judge: Judge, limit: nat, s: State, part: string)
    requires Kept(limit, s) && '\n' !in Whole(part)
    ensures ConsumePart(judge, limit, s, part) == Feed(judge, limit, s, part)
  {
    if part != "" && part[|part| - 1] == '\n' {
      TakeLine(judge, limit, s, part[..|part| - 1]);
      assert part == part[..|part| - 1] + ['\n'];
      TakeWhole(judge, limit, s, part[..|part| - 1]);
    } else {
      TakeWhole(judge, limit, s, part);
    }
  }

  /** Taking a line's text and then its newline is taking both at once. */
  lemma TakeLine(judge: Judge, limit: nat, s: State, before: string)
    requires Kept(limit, s)
    ensures Take(limit, Take(limit, s, before), ['\n']) == Take(limit, s, before + ['\n'])
  {
    BytesAppend(before, ['\n']);
    BytesAppend(s.line, before);
    assert s.line + before + ['\n'] == s.line + (before + ['\n']);
  }

  // ----- The decoder object -----

  function Concat(parts: seq<string>): string {
    if parts == [] then "" else Concat(parts[..|parts| - 1]) + parts[|parts| - 1]
  }

  /** The first newline, or the length. */
  function NewlineAt(text: string): (i: nat)
    ensures i <= |text| && '\n' !in text[..i] && (i < |text| ==> text[i] == '\n')
  {
    if text == "" || text[0] == '\n' then 0
    else
      var i := NewlineAt(text[1..]);
      assert text[..i + 1] == [text[0]] + text[1..][..i];
      i + 1
  }

  lemma ConcatSnoc(parts: seq<string>, part: string)
    ensures Concat(parts + [part]) == Concat(parts) + part
  {
    assert (parts + [part])[..|parts|] == parts;
  }

  /** `text.split` behind every newline. */
  method SplitAfterNewlines(text: string) returns (parts: seq<string>)
    ensures Concat(parts) == text
    ensures forall p :: p in parts ==> '\n' !in Whole(p)
  {
    parts := [];
    var rest := text;
    while rest != ""
      invariant Concat(parts) + rest == text
      invariant forall p :: p in parts ==> '\n' !in Whole(p)
      decreases |rest|
    {
      var i := NewlineAt(rest);
      var n := if i < |rest| then i + 1 else i;
      var part := rest[..n];
      assert Whole(part) == rest[..i];
      assert Concat(parts) + rest == Concat(parts) + part + rest[n..];
      ConcatSnoc(parts, part);
      parts, rest := parts + [part], rest[n..];
    }
  }

  class JsonLines {
    const judge: Judge
    const limit: nat
    var line: string
    var dropping: bool
    var invalid: bool
    var records: seq<string>

    function Model(): State
      reads this
    {
      State(line, dropping, invalid, records)
    }

    /** The retained buffer never exceeds the limit. */
    ghost predicate Valid()
      reads this
    {
      Kept(limit, Model())
    }

    constructor (judge: Judge, limit: nat)
      ensures Valid() && Model() == INIT && this.judge == judge && this.limit == limit
    {
      this.judge, this.limit := judge, limit;
      line, dropping, invalid, records := "", false, false, [];
    }

    method Consume(text: string)
      requires Valid()
      modifies this
      ensures Valid() && Model() == Feed(judge, limit, old(Model()), text)
    {
      var parts := SplitAfterNewlines(text);
      ghost var start := Model();
      var i := 0;
      while i < |parts|
        invariant i <= |parts|
        invariant Valid() && Model() == Feed(judge, limit, start, Concat(parts[..i]))
      {
        assert parts[..i + 1] == parts[..i] + [parts[i]];
        ConcatSnoc(parts[..i], parts[i]);
        FeedAppend(judge, limit, start, Concat(parts[..i]), parts[i]);
        TakePart(parts[i]);
        i := i + 1;
      }
      assert parts[..|parts|] == parts;
    }

    method TakePart(part: string)
      requires Valid() && '\n' !in Whole(part)
      modifies this
      ensures Valid() && Model() == Feed(judge, limit, old(Model()), part)
    {
      FeedKeeps(judge, limit, Model(), part);
      ConsumePartIsFeed(judge, limit, Model(), part);
      if !dropping {
        if Bytes(line) + Bytes(part) > limit {
          line, dropping, invalid := "", true, true;
        } else {
          line := line + part;
        }
      }
      if part != "" && part[|part| - 1] == '\n' {
        if !dropping { Parse(line); }
        line, dropping := "", false;
      }
    }

    method Parse(text: string)
      modifies `records, `invalid
      ensures (Model().records, Model().invalid) == var p := Handle(judge, old(Model()), text); (p.records, p.invalid)
    {
      match judge(records, text) {
        case NotJson => invalid := true;
        case Recorded => records := records + [text];
        case RecordFailed =>
          records := records + [text];
          invalid := true;
      }
    }

    method End(rest: string)
      requires Valid()
      modifies this
      ensures Model() == Finish(judge, Feed(judge, limit, old(Model()), rest))
    {
      Consume(rest);
      if !dropping && line != "" { Parse(line); }
      line := "";
    }
  }

  function Finish(judge: Judge, s: State): State {
    (if !s.dropping && s.line != "" then Handle(judge, s, s.line) else s).(line := "")
  }

  // ----- Chunks do not matter -----

  function FeedChunks(judge: Judge, limit: nat, s: State, chunks: seq<string>): State {
    if chunks == [] then s else Feed(judge, limit, FeedChunks(judge, limit, s, chunks[..|chunks| - 1]), chunks[|chunks| - 1])
  }

  lemma {:induction false} FeedChunksIsFeed(judge: Judge, limit: nat, s: State, chunks: seq<string>)
    ensures FeedChunks(judge, limit, s, chunks) == Feed(judge, limit, s, Concat(chunks))
  {
    if chunks != [] {
      FeedChunksIsFeed(judge, limit, s, chunks[..|chunks| - 1]);
      FeedAppend(judge, limit, s, Concat(chunks[..|chunks| - 1]), chunks[|chunks| - 1]);
    }
  }

  lemma ChunkingIsIrrelevant(judge: Judge, limit: nat, s: State, chunks: seq<string>, other: seq<string>)
    requires Concat(chunks) == Concat(other)
    ensures FeedChunks(judge, limit, s, chunks) == FeedChunks(judge, limit, s, other)
  {
    FeedChunksIsFeed(judge, limit, s, chunks);
    FeedChunksIsFeed(judge, limit, s, other);
  }

  // ----- Against splitting the whole text -----

  /** A line of the text is parsed when its bytes, with its newline, fit the limit; else it is skipped and noted. */
  function Judged(judge: Judge, limit: nat, s: State, line: string): State {
    if Bytes(line) > limit then s.(invalid := true) else Handle(judge, s, line)
  }

  /** The reference: split the whole text into lines, and judge them one by one; an empty rest is no line. */
  function ByLines(judge: Judge, limit: nat, s: State, text: string): State
    decreases |text|
  {
    var i := NewlineAt(text);
    if text == "" then s
    else if i == |text| then Judged(judge, limit, s, text)
    else ByLines(judge, limit, Judged(judge, limit, s, text[..i + 1]), text[i + 1..])
  }

  lemma FirstLine(judge: Judge, limit: nat, s: State, line: string)
    requires s.line == "" && !s.dropping && line != "" && line[|line| - 1] == '\n' && '\n' !in line[..|line| - 1]
    ensures Feed(judge, limit, s, line) == Judged(judge, limit, s, line)
  {
    assert Whole(line) == line[..|line| - 1];
    ConsumePartIsFeed(judge, limit, s, line);
    assert s.line + line == line;
  }

  lemma FinishTake(judge: Judge, limit: nat, s: State, text: string)
    requires s.line == "" && !s.dropping && text != ""
    ensures var taken, judged := Finish(judge, Take(limit, s, text)), Judged(judge, limit, s, text);
            taken.records == judged.records && taken.invalid == judged.invalid
  {
    assert s.line + text == text;
    var t := s.(line := text);
    assert t.records == s.records;
    assert Handle(judge, t, text).records == Handle(judge, s, text).records;
    assert Handle(judge, t, text).invalid == Handle(judge, s, text).invalid;
  }

  lemma LastLine(judge: Judge, limit: nat, s: State, text: string)
    requires s.line == "" && !s.dropping && text != "" && '\n' !in text
    ensures var fed, judged := Finish(judge, Feed(judge, limit, s, text)), Judged(judge, limit, s, text);
            fed.records == judged.records && fed.invalid == judged.invalid
  {
    var fed := Feed(judge, limit, s, text);
    assert fed == Take(limit, s, text) by { TakeWhole(judge, limit, s, text); }
    FinishTake(judge, limit, s, text);
  }

  lemma {:induction false} FeedIsByLines(judge: Judge, limit: nat, s: State, text: string)
    requires s.line == "" && !s.dropping
    ensures var fed := Finish(judge, Feed(judge, limit, s, text));
            var reference := ByLines(judge, limit, s, text);
            fed.records == reference.records && fed.invalid == reference.invalid
    decreases |text|
  {
    if text != "" {
      var i := NewlineAt(text);
      if i == |text| {
        assert text[..i] == text;
        LastLine(judge, limit, s, text);
      } else {
        var line, rest := text[..i + 1], text[i + 1..];
        assert line[..|line| - 1] == text[..i];
        FirstLine(judge, limit, s, line);
        assert text == line + rest;
        FeedAppend(judge, limit, s, line, rest);
        FeedIsByLines(judge, limit, Judged(judge, limit, s, line), rest);
      }
    }
  }

  /**
   For every way the text is cut into chunks, the decoder reports the records and the flag that splitting the whole text
   into lines would: a line is skipped exactly when its bytes exceed the limit.
   */
  lemma DecoderRefinesWholeText(judge: Judge, limit: nat, chunks: seq<string>)
    ensures var decoded := Finish(judge, FeedChunks(judge, limit, INIT, chunks));
            var reference := ByLines(judge, limit, INIT, Concat(chunks));
            decoded.records == reference.records && decoded.invalid == reference.invalid
  {
    FeedChunksIsFeed(judge, limit, INIT, chunks);
    FeedIsByLines(judge, limit, INIT, Concat(chunks));
  }
}
