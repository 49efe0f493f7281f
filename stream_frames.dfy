/**
 * `handleTurn`: the response body arrives in chunks; a carry-over buffer
 * is split on blank lines, complete `data: ` frames are parsed and handed
 * on in order, `[DONE]` stops the reading, and the partial frame left in
 * the buffer is handed on at the end.
 */
module StreamFrames {
  import opened Wrappers
  import opened Strings
  import opened JsonValues

  const FrameSeparator: string := "\n\n"
  const DataPrefix: string := "data: "
  const DoneMarker: string := "[DONE]"

  /** The text the chunks carry, in order. */
  function Concat(chunks: seq<string>): string
    decreases |chunks|
  {
    if chunks == [] then "" else Concat(chunks[..|chunks| - 1]) + chunks[|chunks| - 1]
  }

  lemma {:induction false} ConcatAppend(a: seq<string>, b: seq<string>)
    ensures Concat(a + b) == Concat(a) + Concat(b)
    decreases |b|
  {
    if b == [] {
      assert a + b == a;
    } else {
      var b' := b[..|b| - 1];
      var last := b[|b| - 1];
      assert (a + b)[..|a + b| - 1] == a + b';
      assert (a + b)[|a + b| - 1] == last;
      ConcatAppend(a, b');
      assert Concat(a + b) == Concat(a + b') + last;
      assert Concat(b) == Concat(b') + last;
      assert Concat(a) + Concat(b') + last == Concat(a) + (Concat(b') + last);
    }
  }

  /** How the frames handed on so far ended. */
  datatype Status = Running | SawDone | ParseError

  datatype Delivery = Delivery(events: seq<Json>, status: Status)

  /**
   * The loop over complete frames: only `data: ` frames count, `[DONE]`
   * stops it, and a payload that does not parse ends the turn.
   */
  function DeliverLines(lines: seq<string>, parse: string -> Option<Json>): (d: Delivery)
    ensures |d.events| <= |lines|
  {
    if lines == [] then Delivery([], Running)
    else if !StartsWith(lines[0], DataPrefix) then DeliverLines(lines[1..], parse)
    else
      var payload := lines[0][|DataPrefix|..];
      if payload == DoneMarker then Delivery([], SawDone)
      else match parse(payload)
        case None => Delivery([], ParseError)
        case Some(event) =>
          var rest := DeliverLines(lines[1..], parse);
          Delivery([event] + rest.events, rest.status)
  }

  /**
   * Frames after a stop are never looked at; otherwise the deliveries of
   * two runs of frames concatenate.
   */
  lemma {:induction false} DeliverAppend(a: seq<string>, b: seq<string>, parse: string -> Option<Json>)
    ensures var da := DeliverLines(a, parse); var db := DeliverLines(b, parse);
      DeliverLines(a + b, parse) == if da.status != Running then da else Delivery(da.events + db.events, db.status)
    decreases |a|
  {
    if a == [] {
      assert a + b == b;
    } else {
      var ab := a + b;
      assert ab != [] && ab[0] == a[0];
      assert ab[1..] == a[1..] + b;
      DeliverAppend(a[1..], b, parse);
      var rest := DeliverLines(a[1..], parse);
      var db := DeliverLines(b, parse);
      if StartsWith(a[0], DataPrefix) && a[0][|DataPrefix|..] != DoneMarker && parse(a[0][|DataPrefix|..]).Some? {
        var e := parse(a[0][|DataPrefix|..]).value;
        var restb := DeliverLines(a[1..] + b, parse);
        assert DeliverLines(ab, parse) == Delivery([e] + restb.events, restb.status);
        assert DeliverLines(a, parse) == Delivery([e] + rest.events, rest.status);
        if rest.status == Running {
          assert [e] + (rest.events + db.events) == ([e] + rest.events) + db.events;
        }
      }
    }
  }

  /** A `[DONE]` frame ends the delivery: the frames after it are not handed on. */
  lemma DoneHidesLaterFrames(before: seq<string>, after: seq<string>, parse: string -> Option<Json>)
    requires DeliverLines(before, parse).status == Running
    ensures DeliverLines(before + [DataPrefix + DoneMarker] + after, parse)
         == Delivery(DeliverLines(before, parse).events, SawDone)
  {
    var done := DataPrefix + DoneMarker;
    assert (done)[|DataPrefix|..] == DoneMarker;
    assert DeliverLines([done], parse) == Delivery([], SawDone);
    DeliverAppend(before, [done], parse);
    DeliverAppend(before + [done], after, parse);
    assert DeliverLines(before, parse).events + [] == DeliverLines(before, parse).events;
  }

  /** Frames that are not `data: ` frames are skipped. */
  lemma {:induction false} NonDataFramesSkipped(lines: seq<string>, parse: string -> Option<Json>)
    requires forall i :: 0 <= i < |lines| ==> !StartsWith(lines[i], DataPrefix)
    ensures DeliverLines(lines, parse) == Delivery([], Running)
  {
    if lines != [] {
      NonDataFramesSkipped(lines[1..], parse);
    }
  }

  /** The leftover buffer after the loop: one more event when it is a parsable, non-`[DONE]` data frame. */
  function LeftoverEvents(buffer: string, parse: string -> Option<Json>): (events: seq<Json>)
    ensures |events| <= 1
  {
    if buffer != "" && StartsWith(buffer, DataPrefix) && buffer[|DataPrefix|..] != DoneMarker
       && parse(buffer[|DataPrefix|..]).Some?
    then [parse(buffer[|DataPrefix|..]).value]
    else []
  }

  /** The complete frames of a text: every piece but the last. */
  function CompleteFrames(text: string): seq<string> {
    var pieces := Split(text, FrameSeparator);
    pieces[..|pieces| - 1]
  }

  /** The partial frame of a text: the last piece. */
  function PartialFrame(text: string): string {
    var pieces := Split(text, FrameSeparator);
    pieces[|pieces| - 1]
  }

  predicate Extends<T(==)>(a: seq<T>, b: seq<T>) {
    |a| <= |b| && b[..|a|] == a
  }

  lemma ExtendsAppend<T>(x: seq<T>, y: seq<T>)
    ensures Extends(x, x + y)
  {
    assert (x + y)[..|x|] == x;
  }

  lemma ButLast<T>(x: seq<T>, last: T)
    ensures (x + [last])[..|x|] == x
  {
  }

  lemma ButLastAppend<T>(x: seq<T>, y: seq<T>)
    requires |y| >= 1
    ensures (x + y)[..|x + y| - 1] == x + y[..|y| - 1]
  {
  }

  /** More text after a prefix leaves the prefix's complete frames complete, in place. */
  lemma CompleteFramesGrow(p: string, c: string)
    ensures Extends(CompleteFrames(p), CompleteFrames(p + c))
  {
    SplitAppend(p, c, FrameSeparator);
    var r := Split(p, FrameSeparator);
    var tail := Split(r[|r| - 1] + c, FrameSeparator);
    ButLastAppend(r[..|r| - 1], tail);
    ExtendsAppend(r[..|r| - 1], tail[..|tail| - 1]);
  }

  /** Once read, a complete frame is complete in the whole stream, in the same place. */
  lemma CompleteFramesStay(read: seq<string>, unread: seq<string>)
    ensures Extends(CompleteFrames(Concat(read)), CompleteFrames(Concat(read + unread)))
  {
    ConcatAppend(read, unread);
    CompleteFramesGrow(Concat(read), Concat(unread));
  }

  /** The chunks the first `k` reads consumed; a read after the last chunk yields nothing. */
  function ReadChunks(chunks: seq<string>, k: nat): seq<string> {
    chunks[..if k <= |chunks| then k else |chunks|]
  }

  /**
   * Each read's split loses nothing: the complete frames and the retained
   * buffer rejoin to the old buffer followed by the chunk, and the
   * retained buffer holds no frame separator.
   */
  lemma ReadSplit(buffer: string, chunk: string)
    ensures var pieces := Split(buffer + chunk, FrameSeparator);
      var lines := pieces[..|pieces| - 1]; var kept := pieces[|pieces| - 1];
      Join(lines + [kept], FrameSeparator) == buffer + chunk
      && !Contains(kept, FrameSeparator)
  {
    var pieces := Split(buffer + chunk, FrameSeparator);
    assert pieces[..|pieces| - 1] + [pieces[|pieces| - 1]] == pieces;
    JoinSplit(buffer + chunk, FrameSeparator);
    SplitPiecesFree(buffer + chunk, FrameSeparator);
  }

  /** The text after one more read is the text before it followed by the chunk. */
  lemma ReadNext(chunks: seq<string>, k: nat)
    requires k <= |chunks|
    ensures Concat(ReadChunks(chunks, k + 1)) == Concat(ReadChunks(chunks, k)) + (if k < |chunks| then chunks[k] else "")
  {
    var next := ReadChunks(chunks, k + 1);
    assert ReadChunks(chunks, k) == chunks[..k];
    if k < |chunks| {
      assert next[..k] == chunks[..k];
    } else {
      assert next == chunks[..k];
    }
  }

  /** Splitting the carried-over buffer with the new chunk re-splits the whole text read. */
  lemma SplitCarry(read: string, chunk: string, complete: seq<string>, buffer: string)
    requires Split(read, FrameSeparator) == complete + [buffer]
    ensures var lines := Split(buffer + chunk, FrameSeparator);
      Split(read + chunk, FrameSeparator) == (complete + lines[..|lines| - 1]) + [lines[|lines| - 1]]
  {
    var r := Split(read, FrameSeparator);
    var lines := Split(buffer + chunk, FrameSeparator);
    LastPieceCarry(complete, buffer, r, lines);
    SplitAppend(read, chunk, FrameSeparator);
  }

  /** The sequence bookkeeping of a carry: the old buffer is replaced by the new pieces. */
  lemma LastPieceCarry<T>(complete: seq<T>, buffer: T, r: seq<T>, lines: seq<T>)
    requires r == complete + [buffer] && |lines| >= 1
    ensures r[|r| - 1] == buffer
    ensures r[..|r| - 1] + lines == (complete + lines[..|lines| - 1]) + [lines[|lines| - 1]]
  {
    assert r[..|r| - 1] == complete;
    assert lines == lines[..|lines| - 1] + [lines[|lines| - 1]];
  }

  /** What the first reads have completed stays complete in the whole stream. */
  lemma ReadPrefix(chunks: seq<string>, k: nat)
    ensures Extends(CompleteFrames(Concat(ReadChunks(chunks, k))), CompleteFrames(Concat(chunks)))
  {
    var read := ReadChunks(chunks, k);
    var unread := chunks[|read|..];
    assert read + unread == chunks;
    CompleteFramesStay(read, unread);
  }

  /**
   * One read: appending the chunk to the buffer and splitting again gives
   * the pieces of all the text read so far, and the complete ones stay
   * complete in the whole stream.
   */
  lemma ReadStep(chunks: seq<string>, k: nat, complete: seq<string>, buffer: string)
    requires k <= |chunks|
    requires Split(Concat(ReadChunks(chunks, k)), FrameSeparator) == complete + [buffer]
    ensures var chunk := if k < |chunks| then chunks[k] else "";
      var lines := Split(buffer + chunk, FrameSeparator);
      Split(Concat(ReadChunks(chunks, k + 1)), FrameSeparator) == (complete + lines[..|lines| - 1]) + [lines[|lines| - 1]]
      && Extends(complete + lines[..|lines| - 1], CompleteFrames(Concat(chunks)))
  {
    var chunk := if k < |chunks| then chunks[k] else "";
    var before := Concat(ReadChunks(chunks, k));
    var next := ReadChunks(chunks, k + 1);
    var lines := Split(buffer + chunk, FrameSeparator);
    var grown := complete + lines[..|lines| - 1];
    var last := lines[|lines| - 1];
    assert Concat(next) == before + chunk by {
      ReadNext(chunks, k);
    }
    assert Split(Concat(next), FrameSeparator) == grown + [last] by {
      SplitCarry(before, chunk, complete, buffer);
    }
    assert CompleteFrames(Concat(next)) == grown by {
      ButLast(grown, last);
    }
    ReadPrefix(chunks, k + 1);
  }

  /** A stop in a prefix of the whole stream's frames is the stop of the whole. */
  lemma Settled(prefix: seq<string>, whole: seq<string>, parse: string -> Option<Json>)
    requires Extends(prefix, whole) && DeliverLines(prefix, parse).status != Running
    ensures DeliverLines(whole, parse) == DeliverLines(prefix, parse)
  {
    assert whole == prefix + whole[|prefix|..];
    DeliverAppend(prefix, whole[|prefix|..], parse);
  }

  /** Handing on one more frame. */
  lemma DeliverSnoc(lines: seq<string>, line: string, parse: string -> Option<Json>)
    requires DeliverLines(lines, parse).status == Running
    ensures DeliverLines(lines + [line], parse) ==
      if !StartsWith(line, DataPrefix) then DeliverLines(lines, parse)
      else if line[|DataPrefix|..] == DoneMarker then Delivery(DeliverLines(lines, parse).events, SawDone)
      else match parse(line[|DataPrefix|..])
        case None => Delivery(DeliverLines(lines, parse).events, ParseError)
        case Some(e) => Delivery(DeliverLines(lines, parse).events + [e], Running)
  {
    DeliverAppend(lines, [line], parse);
    assert [line][1..] == [];
  }

  /**
   * The `for (const line of lines)` loop over the complete frames of one
   * read: the events it hands on and how it ended.
   */
  method DeliverFrames(lines: seq<string>, parse: string -> Option<Json>) returns (delivered: seq<Json>, status: Status)
    ensures DeliverLines(lines, parse) == Delivery(delivered, status)
  {
    delivered := [];
    status := Running;
    var i := 0;
    while i < |lines|
      invariant 0 <= i <= |lines|
      invariant DeliverLines(lines[..i], parse) == Delivery(delivered, Running)
    {
      var line := lines[i];
      DeliverSnoc(lines[..i], line, parse);
      assert lines[..i + 1] == lines[..i] + [line];
      if StartsWith(line, DataPrefix) {
        var payload := line[|DataPrefix|..];
        if payload == DoneMarker {
          status := SawDone;
          ExtendsAppend(lines[..i + 1], lines[i + 1..]);
          assert lines[..i + 1] + lines[i + 1..] == lines;
          Settled(lines[..i + 1], lines, parse);
          return;
        }
        var data := parse(payload);
        if data.None? {
          status := ParseError;
          ExtendsAppend(lines[..i + 1], lines[i + 1..]);
          assert lines[..i + 1] + lines[i + 1..] == lines;
          Settled(lines[..i + 1], lines, parse);
          return;
        }
        delivered := delivered + [data.value];
      }
      i := i + 1;
    }
    assert lines[..i] == lines;
  }

  /**
   * The frames `handleTurn` hands on, in order. A non-OK response hands on
   * nothing. Otherwise, unless `[DONE]` stops it, the result depends only
   * on the concatenated text, not on where the chunks were cut: the
   * complete data frames up to the first that does not parse, then the
   * partial frame left at the end. After `[DONE]` the frames before it are
   * handed on and at most one more, the partial frame of the buffer at
   * that moment.
   */
  method HandleTurn(ok: bool, chunks: seq<string>, parse: string -> Option<Json>) returns (events: seq<Json>)
    ensures !ok ==> events == []
    ensures ok ==>
      var text := Concat(chunks); var d := DeliverLines(CompleteFrames(text), parse);
      (d.status == Running ==> events == d.events + LeftoverEvents(PartialFrame(text), parse))
      && (d.status == ParseError ==> events == d.events)
      && (d.status == SawDone ==> Extends(d.events, events) && |events| <= |d.events| + 1)
  {
    events := [];
    if !ok {
      return;
    }
    var buffer := "";
    var done := false;
    var k := 0;
    ghost var complete: seq<string> := [];
    ghost var stopped := false;
    ghost var whole := CompleteFrames(Concat(chunks));
    assert ReadChunks(chunks, 0) == [];
    while !done
      invariant 0 <= k <= |chunks| + 1 && (!done ==> k <= |chunks|)
      invariant Split(Concat(ReadChunks(chunks, k)), FrameSeparator) == complete + [buffer]
      invariant Extends(complete, whole)
      invariant DeliverLines(complete, parse) == Delivery(events, if stopped then SawDone else Running)
      invariant done && !stopped ==> k == |chunks| + 1
      invariant stopped ==> done
      decreases |chunks| + 1 - k
    {
      var chunk := if k < |chunks| then chunks[k] else "";
      done := k >= |chunks|;
      ReadStep(chunks, k, complete, buffer);
      var lines := Split(buffer + chunk, FrameSeparator);
      buffer := lines[|lines| - 1];
      lines := lines[..|lines| - 1];
      var delivered, status := DeliverFrames(lines, parse);
      DeliverAppend(complete, lines, parse);
      complete := complete + lines;
      k := k + 1;
      events := events + delivered;
      if status == ParseError {
        Settled(complete, whole, parse);
        return;
      }
      if status == SawDone {
        done := true;
        stopped := true;
      }
    }
    if stopped {
      Settled(complete, whole, parse);
    } else {
      assert ReadChunks(chunks, k) == chunks;
    }
    if buffer != "" && StartsWith(buffer, DataPrefix) {
      var payload := buffer[|DataPrefix|..];
      if payload != DoneMarker {
        var data := parse(payload);
        if data.None? {
          return;
        }
        events := events + [data.value];
      }
    }
  }

  // ---------------------------------------------------------------------
  // The route's framing
  // ---------------------------------------------------------------------

  /** What the route writes: each event as `data: <json>` and a blank line. */
  function ServerStream(payloads: seq<string>): string {
    if payloads == [] then "" else DataPrefix + payloads[0] + FrameSeparator + ServerStream(payloads[1..])
  }

  function DataLines(payloads: seq<string>): (lines: seq<string>)
    ensures |lines| == |payloads|
    ensures forall i :: 0 <= i < |lines| ==> lines[i] == DataPrefix + payloads[i]
  {
    if payloads == [] then [] else [DataPrefix + payloads[0]] + DataLines(payloads[1..])
  }

  lemma {:induction false} ServerStreamJoin(payloads: seq<string>)
    ensures ServerStream(payloads) == Join(DataLines(payloads) + [""], FrameSeparator)
  {
    if payloads != [] {
      ServerStreamJoin(payloads[1..]);
      var line := DataPrefix + payloads[0];
      var rest := DataLines(payloads[1..]) + [""];
      assert DataLines(payloads) + [""] == [line] + rest;
      JoinCons(line, rest, FrameSeparator);
    }
  }

  lemma {:induction false} DeliverDataLines(payloads: seq<string>, events: seq<Json>, parse: string -> Option<Json>)
    requires |payloads| == |events|
    requires forall i :: 0 <= i < |payloads| ==> payloads[i] != DoneMarker && parse(payloads[i]) == Some(events[i])
    ensures DeliverLines(DataLines(payloads), parse) == Delivery(events, Running)
  {
    if payloads != [] {
      DeliverDataLines(payloads[1..], events[1..], parse);
      var line := DataPrefix + payloads[0];
      assert line[|DataPrefix|..] == payloads[0];
      assert DataLines(payloads)[1..] == DataLines(payloads[1..]);
      assert [events[0]] + events[1..] == events;
    }
  }

  /**
   * The route's framing reaches the callback intact: when every payload
   * is one line of JSON that parses, whatever the chunking, the turn hands
   * on exactly the parsed events, in order, and leaves an empty buffer.
   */
  lemma ServerFramingRoundTrip(chunks: seq<string>, payloads: seq<string>, events: seq<Json>, parse: string -> Option<Json>)
    requires Concat(chunks) == ServerStream(payloads)
    requires |payloads| == |events|
    requires forall i :: 0 <= i < |payloads| ==> payloads[i] != DoneMarker && parse(payloads[i]) == Some(events[i])
    requires forall i, j :: 0 <= i < |payloads| && 0 <= j < |payloads[i]| ==> payloads[i][j] != '\n'
    ensures DeliverLines(CompleteFrames(Concat(chunks)), parse) == Delivery(events, Running)
    ensures PartialFrame(Concat(chunks)) == ""
    ensures LeftoverEvents(PartialFrame(Concat(chunks)), parse) == []
  {
    var lines := DataLines(payloads) + [""];
    ServerStreamJoin(payloads);
    forall i | 0 <= i < |lines| - 1 ensures Clean(lines[i], FrameSeparator) {
      var line := lines[i];
      assert line == DataPrefix + payloads[i];
      forall j | 0 <= j < |line| ensures line[j] != '\n' {
        if j >= |DataPrefix| { assert line[j] == payloads[i][j - |DataPrefix|]; }
      }
      NoNewlineClean(line);
    }
    NoNewlineClean("");
    SplitJoin(lines, FrameSeparator);
    assert lines[..|lines| - 1] == DataLines(payloads);
    DeliverDataLines(payloads, events, parse);
  }
}
