/** The event bus: publishers append lines to a file that readers scan in chunks, from where
    they stopped, while others go on publishing. */
module EventBus {
  import opened Text
  import opened EventLog

  class Bus<E(!new, ==)> {
    const codec: Codec<E>
    const initial: string  // what the file held before anything was published
    const reliable: bool   // appending always works
    var file: string
    ghost var published: seq<E>

    ghost predicate Valid()
      reads this
    {
      Faithful(codec) && file == initial + Lines(codec, published)
    }

    constructor (codec: Codec<E>, initial: string, reliable: bool)
      requires Faithful(codec)
      ensures this.codec == codec && this.initial == initial && this.reliable == reliable && published == [] && Valid()
    {
      this.codec, this.initial, this.reliable := codec, initial, reliable;
      file, published := initial, [];
    }

    /** `Publish`, its append being atomic: all of the line or nothing. */
    method Publish(e: E) returns (ok: bool)
      requires Valid()
      modifies this
      ensures Valid() && published == if ok then old(published) + [e] else old(published)
      ensures reliable ==> ok
    {
      var works: bool := *;
      ok := works || reliable;
      if ok {
        file := file + codec.encode(e) + "\n";
        published := published + [e];
        assert published[..|published| - 1] == old(published);
        hide Faithful;
        assert Lines(codec, published) == Lines(codec, old(published)) + codec.encode(e) + "\n";
      }
    }

    /** Other processes publish. */
    method Others()
      requires Valid()
      modifies this
      ensures Valid() && old(published) <= published && old(file) <= file
    {
      var more: seq<E> := *;
      LinesAppend(codec, published, more);
      hide Lines, Faithful;
      file, published := file + Lines(codec, more), published + more;
    }

    /** `Tail`: tokens are cut from a buffer that is filled chunk by chunk until a read finds
        the end of the file. Other processes publish meanwhile, finitely often. */
    method Tail(offset: nat) returns (events: seq<E>, newOffset: nat, tooLong: bool, ghost upTo: nat)
      requires Valid() && offset <= |file|
      modifies this
      ensures Valid() && old(published) <= published && old(file) <= file && offset <= newOffset <= |file|
      ensures !tooLong ==> events == EventsIn(codec, file[offset..newOffset])
      ensures tooLong <==> !Fits(file[offset..newOffset])
      ensures !tooLong ==> |old(published)| <= upTo <= |published| && file[..newOffset] == initial + Lines(codec, published[..upTo])
    {
      hide EventsIn, EventOf, Fits, Lines, Faithful, Scanned;
      var pos, buffer, eof := offset, "", false;
      var interruptions: nat := *;
      events, tooLong, upTo := [], false, |published|;
      ScanStarts(codec, file, offset);
      while true
        invariant Valid() && old(published) <= published && old(file) <= file && 0 <= pos <= |file| && |buffer| <= MAX_TOKEN
        invariant Scanned(codec, file, offset, pos, buffer, events)
        invariant eof ==> |buffer| < MAX_TOKEN
        invariant eof ==> |old(published)| <= upTo <= |published| && file[..pos] == initial + Lines(codec, published[..upTo])
        decreases interruptions, |file| - pos, |buffer|, !eof
      {
        var i := IndexOf(buffer, '\n');
        if i >= 0 {
          ScanToken(codec, file, offset, pos, buffer, events, i);
          events := events + EventOf(codec, buffer[..i]);
          buffer := buffer[i + 1..];
        } else if eof {
          ScanEnds(codec, file, offset, pos, buffer, events);
          if buffer != "" {
            events := events + EventOf(codec, buffer);
          }
          return events, pos, false, upTo;
        } else if |buffer| >= MAX_TOKEN {
          ScanEnds(codec, file, offset, pos, buffer, events);
          return events, pos, true, upTo;
        } else {
          if interruptions > 0 {
            interruptions := interruptions - 1;
            ghost var before := file;
            Others();
            ScanSeesGrowth(codec, before, file, offset, pos, buffer, events);
          }
          if pos == |file| {
            eof, upTo := true, |published|;
            assert file[..pos] == file && published[..upTo] == published;
          } else {
            var left := |file| - pos;
            assert 1 <= 1 <= MAX_TOKEN - |buffer| && 1 <= left;
            var n: nat :| 1 <= n <= MAX_TOKEN - |buffer| && n <= left;
            ScanChunk(codec, file, offset, pos, buffer, events, n);
            buffer := buffer + file[pos..pos + n];
            pos := pos + n;
          }
        }
      }
    }

    /** `Watch`, for some number of polls: Tail after Tail, each from where the last one ended. */
    method Watch(polls: nat) returns (delivered: seq<E>, offset: nat, failed: bool, ghost upTo: nat)
      requires Valid() && Whole(initial)
      modifies this
      ensures Valid() && old(published) <= published && offset <= |file| && upTo <= |published|
      ensures delivered == EventsIn(codec, file[..offset])
      ensures !failed && polls > 0 ==> |old(published)| <= upTo && delivered == EventsIn(codec, initial) + published[..upTo]
      ensures Fits(initial) && AllShort(codec, published) ==> !failed
    {
      hide EventsIn, EventOf, Fits, Lines, Whole, Faithful;
      delivered, offset, failed, upTo := [], 0, false, 0;
      NothingIn(codec);
      assert file[..0] == "";
      for i := 0 to polls
        invariant Valid() && old(published) <= published && offset <= |file| && upTo <= |published| && !failed
        invariant delivered == EventsIn(codec, file[..offset]) && Whole(file[..offset])
        invariant i > 0 ==> |old(published)| <= upTo && file[..offset] == initial + Lines(codec, published[..upTo])
      {
        ghost var seen := file[..offset];
        Others();
        assert file[..offset] == seen;
        var events, newOffset, tooLong, reached := Tail(offset);
        assert file[..offset] == seen;
        assert file[..newOffset] == seen + file[offset..newOffset];
        if tooLong {
          failed := true;
          LongLineSomewhere(seen, newOffset);
          return;
        }
        EventsAppend(codec, seen, file[offset..newOffset]);
        WholePrefix(codec, initial, published[..reached]);
        delivered, offset, upTo := delivered + events, newOffset, reached;
      }
      if polls > 0 {
        EventsAppend(codec, initial, Lines(codec, published[..upTo]));
        LinesRead(codec, published[..upTo]);
      }
    }

    /** If the part that was scanned does not fit, some published event does not. */
    lemma LongLineSomewhere(seen: string, end: nat)
      requires Valid() && Whole(initial) && Whole(seen) && |seen| <= end <= |file| && file[..|seen|] == seen
      requires !Fits(file[|seen|..end])
      ensures !Fits(initial) || !AllShort(codec, published)
    {
      hide Fits, Whole, Lines, Faithful;
      var rest := file[|seen|..];
      assert file == seen + rest;
      FitsAppend(seen, rest);
      assert rest == file[|seen|..end] + file[end..];
      FitsAppend(initial, Lines(codec, published));
      LinesFit(codec, published);
      if Fits(rest) {
        PrefixFits(file[|seen|..end], file[end..]);
      }
    }
  }

  lemma NothingIn<E>(c: Codec<E>)
    ensures EventsIn(c, "") == [] && Whole("")
  {}

  lemma WholePrefix<E>(c: Codec<E>, initial: string, events: seq<E>)
    requires Whole(initial)
    ensures Whole(initial + Lines(c, events))
  {
    LinesWhole(c, events);
    hide Lines;
  }

  lemma {:induction false} FitsUnended(text: string)
    requires Free(text, '\n')
    ensures Fits(text) <==> |text| < MAX_TOKEN
  {}

  lemma FirstOf(text: string)
    ensures var i := IndexOf(text, '\n');
            if i >= 0 then Free(text[..i], '\n') && text == text[..i] + "\n" + text[i + 1..] else Free(text, '\n')
  {}

  lemma {:induction false} PrefixFits(a: string, b: string)
    requires Fits(a + b)
    ensures Fits(a)
    decreases |a|
  {
    hide *;
    FirstOf(a);
    var i := IndexOf(a, '\n');
    if i >= 0 {
      var line, rest := a[..i], a[i + 1..];
      assert a + b == line + "\n" + (rest + b);
      FitsFirst(line, rest);
      FitsFirst(line, rest + b);
      PrefixFits(rest, b);
    } else {
      FitsUnended(a);
      ShortStart(a, b);
    }
  }

  lemma ShortStart(a: string, b: string)
    requires Fits(a + b) && Free(a, '\n')
    ensures |a| < MAX_TOKEN
  {
    FirstOf(a + b);
    var i := IndexOf(a + b, '\n');
    assert forall j | 0 <= j < |a| :: (a + b)[j] == a[j];
    if i >= 0 {
      assert i >= |a|;
      hide Fits;
      FitsFirst((a + b)[..i], (a + b)[i + 1..]);
    } else {
      hide Fits;
      FitsUnended(a + b);
    }
  }
}
